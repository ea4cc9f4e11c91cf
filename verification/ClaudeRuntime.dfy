/**
 * The Claude Code runtime object, one method per stretch of code between two awaits. Each method
 * is one event of `ClaudeLifecycle`, and every one keeps the ownership invariant. What a method
 * comes to for its caller is a predicate on the states before and after it, given below the class.
 */
module ClaudeRuntime {
  import opened Wrappers
  import opened ClaudeLifecycle
  import opened ClaudeLifecycleSafety

  class ClaudeCodeRuntime {
    var session: Option<Sess>
    var stopped: bool
    var generation: nat
    var status: Status
    var threadId: Option<Thread>
    var sessionStarting: Option<CreationId>
    var creation: Creation
    var settled: map<CreationId, Option<Sess>>
    var startTask: Start
    var submits: map<SubmitId, Submit>
    var pendingAdmissions: set<SubmitId>
    var stopTask: Stop
    var fence: Fence
    var nextSession: nat
    var nextThread: nat
    var nextCreation: nat
    var nextSubmit: nat
    ghost var exited: set<Sess>
    var exiting: set<Sess>
    ghost var launches: map<Sess, Launch>
    ghost var proven: set<Sess>

    constructor (prior: Option<Thread>)
      ensures Now() == Initial(prior) && Inv(Now())
      ensures !stopped && Current(Now(), generation) && status == Declared && threadId == prior
      ensures session == None && sessionStarting == None && launches == map[] && submits == map[] && pendingAdmissions == {}
      ensures prior.Some? ==> nextThread > prior.value.n
    {
      session, stopped, generation, status, threadId := None, false, 0, Declared, prior;
      sessionStarting, creation, settled, startTask := None, Idle, map[], NoStart;
      submits, pendingAdmissions, stopTask, fence := map[], {}, NoStop, FenceOpen;
      nextSession, nextThread, nextCreation, nextSubmit := 0, if prior.Some? then prior.value.n + 1 else 0, 0, 0;
      exited, exiting, launches, proven := {}, {}, map[], {};
    }

    ghost function Now(): State
      reads this
    {
      State(session, stopped, generation, status, threadId, sessionStarting, creation, settled, startTask, submits,
            pendingAdmissions, stopTask, fence, exited, exiting, launches, proven,
            nextSession, nextThread, nextCreation, nextSubmit)
    }

    // ---- Shared stretches ----

    predicate IsCurrent(gen: nat)
      reads this
    {
      !stopped && fence.FenceOpen? && gen == generation
    }

    method SetStatus(next: Status)
      modifies this`status
      ensures Now() == ClaudeLifecycle.SetStatus(old(Now()), next)
    {
      if fence.FenceOpen? {
        status := next;
      }
    }

    /** The fence's close, up to the first await of the teardown it begins. */
    method CloseFence()
      modifies this`fence, this`stopped, this`generation, this`status
      ensures Now() == WriteFailed(old(Now()))
      ensures Fences(old(Now()), Now())
    {
      hide Fences;
      FenceMeans(Now());
      if fence.FenceOpen? {
        stopped := true;
        generation := generation + 1;
        if session.Some? {
          fence := FenceTearing(session.value);
        } else {
          status := Stopped;
          fence := FenceDone;
        }
      }
    }

    /** `session.stop()` resolved: the reference is let go unless it was replaced. */
    method Prove(p: Sess)
      modifies this`session, this`proven
      ensures Now() == StopEnded(old(Now()), p, true)
    {
      proven := proven + {p};
      if session == Some(p) {
        session := None;
      }
    }

    // ---- The session ----

    /** Build the session and own it before its spawn begins. */
    method ConstructSession(id: CreationId, gen: nat)
      modifies this`session, this`launches, this`nextSession, this`nextThread, this`creation
      ensures Now() == Create(old(Now()), id, gen)
      ensures OwnsFirst(old(Now()), Now(), id, gen)
      ensures old(Inv(Now()) && NoneAlive(Now()) && Current(Now(), gen) && sessionStarting == Some(id)) ==> Keeps(old(Now()), Now())
    {
      hide OwnsFirst, Inv, Keeps;
      ConstructMeans(Now(), id, gen);
      var launch := if threadId.Some? then Launch(threadId.value, true) else Launch(Thread(nextThread), false);
      var p := Sess(nextSession);
      nextThread, nextSession, session, launches, creation :=
        nextThread + 1, nextSession + 1, Some(p), launches[p := launch], Spawning(id, gen, p);
    }

    method SettleCreation(id: CreationId, outcome: Option<Sess>)
      modifies this`creation, this`settled
      ensures Now() == Settle(old(Now()), id, outcome)
    {
      settled := settled[id := outcome];
      creation := Idle;
    }

    method CreateSession(id: CreationId)
      requires id == CreationId(nextCreation)
      modifies this`session, this`launches, this`nextSession, this`nextThread, this`creation, this`settled,
               this`nextCreation, this`sessionStarting
      ensures Now() == Begin(old(Now()))
    {
      nextCreation := nextCreation + 1;
      sessionStarting := Some(id);
      if !IsCurrent(generation) {
        SettleCreation(id, None);
      } else if session.Some? {
        creation := StoppingPrevious(id, generation, session.value);
      } else {
        ConstructSession(id, generation);
      }
    }

    method EnsureSession(alive: bool) returns (wait: Wait)
      modifies this`session, this`launches, this`nextSession, this`nextThread, this`creation, this`settled,
               this`nextCreation, this`sessionStarting
      ensures Now() == Ensure(old(Now()), alive) && wait == EnsureWait(old(Now()), alive)
      ensures OneCreation(old(Now()), Now(), alive, wait)
    {
      hide Begin, OneCreation;
      EnsureMeans(Now(), alive);
      if stopped {
        return Refused;
      }
      if sessionStarting.Some? {
        return Joined(sessionStarting.value);
      }
      if session.Some? && alive {
        return Have(session.value);
      }
      wait := Joined(CreationId(nextCreation));
      CreateSession(CreationId(nextCreation));
    }

    method FailCreation(id: CreationId, p: Sess)
      modifies this`creation, this`settled
      ensures Now() == CreationFailed(old(Now()), id, p)
    {
      if stopped {
        SettleCreation(id, None);
      } else {
        creation := FailStopping(id, p);
      }
    }

    method OnPreviousStopped(ok: bool)
      requires Inv(Now()) && creation.StoppingPrevious?
      modifies this
      ensures Now() == PreviousStopped(old(Now()), ok)
      ensures Keeps(old(Now()), Now()) && Inv(Now())
      ensures ReplacesProven(old(Now()), Now(), ok)
    {
      hide Inv, Keeps, ReplacesProven, OwnsFirst;
      PreviousStoppedMeans(Now(), ok);
      NextInv(Now(), EPreviousStopped(ok));
      var id, gen := creation.id, creation.gen;
      if ok {
        Prove(creation.previous);
      }
      if ok && IsCurrent(gen) {
        ConstructSession(id, gen);
      } else {
        SettleCreation(id, None);
      }
    }

    method OnSpawned(ok: bool)
      requires Inv(Now()) && creation.Spawning?
      modifies this
      ensures Now() == Spawned(old(Now()), ok)
      ensures Keeps(old(Now()), Now()) && Inv(Now())
      ensures GoesOnToPublish(old(Now()), Now(), ok)
    {
      hide Inv, Keeps, GoesOnToPublish;
      SpawnedMeans(Now(), ok);
      NextInv(Now(), ESpawned(ok));
      if ok && IsCurrent(creation.gen) {
        creation := Publishing(creation.id, creation.gen, creation.session);
      } else {
        FailCreation(creation.id, creation.session);
      }
    }

    /** `thread` is the one the session was launched on. */
    method OnPublished(ok: bool, thread: Thread)
      requires Inv(Now()) && creation.Publishing? && creation.session in launches
      requires launches[creation.session].thread == thread
      modifies this
      ensures Now() == Published(old(Now()), ok)
      ensures Keeps(old(Now()), Now()) && Inv(Now())
      ensures KeepsThread(old(Now()), Now(), ok)
    {
      hide Inv, Keeps, KeepsThread, Fences;
      PublishedMeans(Now(), ok);
      NextInv(Now(), EPublished(ok));
      if !ok {
        CloseFence();
      }
      if ok && IsCurrent(creation.gen) {
        threadId := Some(thread);
        SettleCreation(creation.id, Some(creation.session));
      } else {
        FailCreation(creation.id, creation.session);
      }
    }

    method OnFailStopped(ok: bool)
      requires Inv(Now()) && creation.FailStopping?
      modifies this
      ensures Now() == FailStopped(old(Now()), ok)
      ensures Keeps(old(Now()), Now()) && Inv(Now())
      ensures GivesUp(old(Now()), Now(), ok)
    {
      hide Inv, Keeps, GivesUp;
      FailStoppedMeans(Now(), ok);
      NextInv(Now(), EFailStopped(ok));
      if ok {
        Prove(creation.session);
      }
      SettleCreation(creation.id, None);
    }

    method ReleaseStarting()
      requires Inv(Now()) && sessionStarting.Some? && creation.Idle?
      modifies this
      ensures Now() == Released(old(Now()))
      ensures Keeps(old(Now()), Now()) && Inv(Now())
      ensures sessionStarting == None && launches == old(launches) && submits == old(submits)
    {
      hide Inv, Keeps;
      NextInv(Now(), EReleased);
      sessionStarting := None;
    }

    /** The outcome a wait resumes with. */
    method Resume(wait: Wait) returns (got: Option<Sess>)
      requires WaitOver(Now(), wait)
      ensures got == Waited(Now(), wait)
    {
      if wait.Refused? {
        return None;
      }
      if wait.Have? {
        return Some(wait.session);
      }
      return settled[wait.id];
    }

    // ---- start() ----

    method Start()
      requires Inv(Now())
      modifies this
      ensures Now() == StartCalled(old(Now()))
      ensures Keeps(old(Now()), Now()) && Inv(Now())
      ensures StartsOnce(old(Now()), Now())
    {
      hide Inv, Keeps, StartsOnce;
      StartMeans(Now());
      NextInv(Now(), EStart);
      if stopped || startTask != NoStart || status == Ready || !IsCurrent(generation) {
        return;
      }
      status := Starting;
      startTask := StartPublishing(generation);
    }

    method FailStart(gen: nat)
      modifies this`status, this`startTask
      ensures Now() == StartFailed(old(Now()), gen)
    {
      if !stopped && gen == generation {
        status := Degraded;
        startTask := StartDegrading;
      } else {
        startTask := NoStart;
      }
    }

    method OnStartPublished(ok: bool)
      requires Inv(Now()) && startTask.StartPublishing?
      modifies this
      ensures Now() == StartPublished(old(Now()), ok)
      ensures Keeps(old(Now()), Now()) && Inv(Now())
      ensures GoesOnOrFences(old(Now()), Now(), ok)
    {
      hide Inv, Keeps, Fences, GoesOnOrFences;
      StartPublishedMeans(Now(), ok);
      NextInv(Now(), EStartPublished(ok));
      if ok {
        startTask := Materializing(startTask.gen);
      } else {
        CloseFence();
        startTask := NoStart;
      }
    }

    method OnMaterialized(ok: bool, alive: bool)
      requires Inv(Now()) && startTask.Materializing?
      modifies this
      ensures Now() == Materialized(old(Now()), ok, alive)
      ensures Keeps(old(Now()), Now()) && Inv(Now())
      ensures SpawnsCurrent(old(Now()), Now(), ok, alive)
    {
      hide Inv, Keeps, Ensure, EnsureWait, SpawnsCurrent, OneCreation;
      MaterializedMeans(Now(), ok, alive);
      NextInv(Now(), EMaterialized(ok, alive));
      var gen := startTask.gen;
      if ok && IsCurrent(gen) {
        var wait := EnsureSession(alive);
        startTask := StartEnsuring(gen, wait);
      } else {
        FailStart(gen);
      }
    }

    method OnStartEnsured()
      requires Inv(Now()) && startTask.StartEnsuring? && WaitOver(Now(), startTask.wait)
      modifies this
      ensures Now() == StartEnsured(old(Now()))
      ensures Keeps(old(Now()), Now()) && Inv(Now())
      ensures ReadyOnlyWith(old(Now()), Now())
    {
      hide Inv, Keeps, ReadyOnlyWith;
      StartEnsuredMeans(Now());
      NextInv(Now(), EStartEnsured);
      var gen := startTask.gen;
      var got := Resume(startTask.wait);
      if got.Some? && IsCurrent(gen) {
        status := Ready;
        startTask := StartMarking(gen);
      } else {
        FailStart(gen);
      }
    }

    method OnStartReported(ok: bool)
      requires Inv(Now()) && (startTask.StartDegrading? || startTask.StartMarking?)
      modifies this
      ensures Now() == StartReported(old(Now()), ok)
      ensures Keeps(old(Now()), Now()) && Inv(Now())
      ensures ReportsOrFences(old(Now()), Now(), ok)
    {
      hide Inv, Keeps, Fences, ReportsOrFences;
      StartReportedMeans(Now(), ok);
      NextInv(Now(), EStartReported(ok));
      if !ok {
        CloseFence();
      }
      startTask := NoStart;
    }

    // ---- submit() ----

    method SubmitInput(alive: bool) returns (id: SubmitId)
      requires Inv(Now())
      modifies this
      ensures id == SubmitId(old(nextSubmit))
      ensures Now() == SubmitCalled(old(Now()), alive)
      ensures Keeps(old(Now()), Now()) && Inv(Now())
      ensures Tracks(old(Now()), Now(), id, alive)
    {
      hide Inv, Keeps, Begin, Tracks, OneCreation;
      SubmitMeans(Now(), alive);
      NextInv(Now(), ESubmit(alive));
      hide WaitOver, Ensure, EnsureWait, MustCreate;
      id := SubmitId(nextSubmit);
      var phase := Decided(AnsweredStopped);
      if !stopped {
        var wait := EnsureSession(alive);
        phase := Ensuring(wait);
      } else {
        assert Now() == Ensure(Now(), alive) by {
          StoppedCreatesNothing(Now(), alive);
        }
      }
      submits, pendingAdmissions, nextSubmit := submits[id := phase], pendingAdmissions + {id}, nextSubmit + 1;
    }

    method OnSubmitEnsured(id: SubmitId)
      requires Inv(Now()) && id in submits && submits[id].Ensuring? && WaitOver(Now(), submits[id].wait)
      modifies this
      ensures Now() == SubmitEnsured(old(Now()), id)
      ensures Keeps(old(Now()), Now()) && Inv(Now())
      ensures AnswersOrGoesOn(old(Now()), Now(), id)
    {
      hide Inv, Keeps, AnswersOrGoesOn;
      SubmitEnsuredMeans(Now(), id);
      NextInv(Now(), ESubmitEnsured(id));
      var got := Resume(submits[id].wait);
      if got.None? {
        if stopped {
          submits := submits[id := Decided(AnsweredStopped)];
        } else {
          SetStatus(Degraded);
          submits := submits[id := Decided(AnsweredFailed)];
        }
        return;
      }
      if stopped {
        submits := submits[id := Decided(AnsweredStopped)];
        return;
      }
      submits := submits[id := Submitting(got.value)];
    }

    method OnSubmitAnswered(id: SubmitId, submitted: bool, alive: bool)
      requires Inv(Now()) && id in submits && submits[id].Submitting?
      modifies this
      ensures Now() == SubmitAnswered(old(Now()), id, submitted, alive)
      ensures Keeps(old(Now()), Now()) && Inv(Now())
      ensures SessionDecides(old(Now()), Now(), id, submitted, alive)
    {
      hide Inv, Keeps, SessionDecides;
      SubmitAnsweredMeans(Now(), id, submitted, alive);
      NextInv(Now(), ESubmitAnswered(id, submitted, alive));
      if !stopped && session == Some(submits[id].session) && alive && submitted && status != Ready {
        SetStatus(Ready);
      }
      submits := submits[id := Decided(AnsweredBySession(submitted))];
    }

    method ReleaseAdmission(id: SubmitId)
      requires Inv(Now()) && IsDecided(Now(), id)
      modifies this
      ensures Now() == SubmitReleased(old(Now()), id)
      ensures Keeps(old(Now()), Now()) && Inv(Now())
      ensures pendingAdmissions == old(pendingAdmissions) - {id} && submits == old(submits)
    {
      hide Inv, Keeps;
      NextInv(Now(), ESubmitReleased(id));
      pendingAdmissions := pendingAdmissions - {id};
    }

    // ---- The session exits by itself ----

    method OnSessionExit(p: Sess)
      requires Inv(Now()) && p in launches && p !in exited
      modifies this
      ensures Now() == Exited(old(Now()), p)
      ensures Keeps(old(Now()), Now()) && Inv(Now())
      ensures HeedsOwnExit(old(Now()), Now(), p)
    {
      hide Inv, Keeps, HeedsOwnExit;
      ExitMeans(Now(), p);
      NextInv(Now(), EExit(p));
      exited := exited + {p};
      if session != Some(p) {
        return;
      }
      if stopped {
        return;
      }
      exiting := exiting + {p};
    }

    method OnExitStopped(p: Sess, ok: bool)
      requires Inv(Now()) && p in exiting
      modifies this
      ensures Now() == ExitStopped(old(Now()), p, ok)
      ensures Keeps(old(Now()), Now()) && Inv(Now())
      ensures DropsIfProved(old(Now()), Now(), p, ok)
    {
      hide Inv, Keeps, DropsIfProved;
      ExitStoppedMeans(Now(), p, ok);
      NextInv(Now(), EExitStopped(p, ok));
      exiting := exiting - {p};
      if !ok {
        SetStatus(Degraded);
        return;
      }
      Prove(p);
      if !stopped {
        SetStatus(Degraded);
      }
    }

    // ---- stop() ----

    /** One round of waiting for the admissions in flight. */
    method DrainAdmissions(fatal: bool)
      modifies this`stopTask, this`status
      ensures Now() == Drain(old(Now()), fatal)
      ensures GoesOnWhenDrained(old(Now()), Now(), fatal)
    {
      hide GoesOnWhenDrained;
      DrainMeans(Now(), fatal);
      if pendingAdmissions != {} {
        stopTask := StopDraining(pendingAdmissions, fatal);
      } else {
        status := Stopped;
        stopTask := if fatal then StopResolved else StopMarking;
      }
    }

    method StopRuntime()
      requires Inv(Now())
      modifies this
      ensures Now() == StopCalled(old(Now()))
      ensures Keeps(old(Now()), Now()) && Inv(Now())
      ensures FencesInput(old(Now()), Now())
    {
      hide Inv, Keeps, FencesInput;
      StopMeans(Now());
      NextInv(Now(), EStop);
      if stopTask != NoStop {
        return;
      }
      if !fence.FenceOpen? {
        stopTask := FatalJoining;
        return;
      }
      if status == Stopped {
        return;
      }
      stopped, generation := true, generation + 1;
      status, stopTask := Stopping, StopSettling;
    }

    method OnStopSettled(ok: bool)
      requires Inv(Now()) && stopTask.StopSettling?
      modifies this
      ensures Now() == StopSettled(old(Now()), ok)
      ensures Keeps(old(Now()), Now()) && Inv(Now())
      ensures AwaitsWhatIsThere(old(Now()), Now())
    {
      hide Inv, Keeps, AwaitsWhatIsThere, Fences, GoesOnWhenDrained;
      StopSettledMeans(Now(), ok);
      NextInv(Now(), EStopSettled(ok));
      if !ok {
        CloseFence();
      }
      if session.Some? {
        stopTask := StopAwaiting(session.value);
      } else {
        DrainAdmissions(false);
      }
    }

    method OnStopProved(ok: bool)
      requires Inv(Now()) && stopTask.StopAwaiting?
      modifies this
      ensures Now() == StopProved(old(Now()), ok)
      ensures Keeps(old(Now()), Now()) && Inv(Now())
      ensures ProvesOrFails(old(Now()), Now(), ok)
    {
      hide Inv, Keeps, ProvesOrFails, GoesOnWhenDrained;
      StopProvedMeans(Now(), ok);
      NextInv(Now(), EStopProved(ok));
      if ok {
        Prove(stopTask.session);
        DrainAdmissions(false);
      } else {
        stopTask := NoStop;
      }
    }

    method OnDrained()
      requires Inv(Now()) && AwaitedDecided(Now())
      modifies this
      ensures Now() == Drained(old(Now()))
      ensures Keeps(old(Now()), Now()) && Inv(Now())
    {
      hide Inv, Keeps, GoesOnWhenDrained;
      NextInv(Now(), EDrained);
      DrainAdmissions(stopTask.fatal);
    }

    method OnStopMarked(ok: bool)
      requires Inv(Now()) && stopTask.StopMarking?
      modifies this
      ensures Now() == StopMarked(old(Now()), ok)
      ensures Keeps(old(Now()), Now()) && Inv(Now())
      ensures ResolvesOrFences(old(Now()), Now(), ok)
    {
      hide Inv, Keeps, Fences, ResolvesOrFences;
      StopMarkedMeans(Now(), ok);
      NextInv(Now(), EStopMarked(ok));
      if !ok {
        CloseFence();
      }
      stopTask := StopResolved;
    }

    method OnFatalJoined()
      requires Inv(Now()) && stopTask.FatalJoining? && (fence.FenceDone? || fence.FenceFailed?)
      modifies this
      ensures Now() == FatalJoined(old(Now()))
      ensures Keeps(old(Now()), Now()) && Inv(Now())
      ensures RetriesWhatIsLeft(old(Now()), Now())
    {
      hide Inv, Keeps, RetriesWhatIsLeft, GoesOnWhenDrained;
      FatalJoinedMeans(Now());
      NextInv(Now(), EFatalJoined);
      if fence.FenceFailed? && session.Some? {
        stopTask := FatalRetrying(session.value);
      } else {
        DrainAdmissions(true);
      }
    }

    method OnFatalRetried(ok: bool)
      requires Inv(Now()) && stopTask.FatalRetrying?
      modifies this
      ensures Now() == FatalRetried(old(Now()), ok)
      ensures Keeps(old(Now()), Now()) && Inv(Now())
      ensures ResolvesOnlyIf(old(Now()), Now(), ok)
    {
      hide Inv, Keeps, ResolvesOnlyIf, GoesOnWhenDrained;
      FatalRetriedMeans(Now(), ok);
      NextInv(Now(), EFatalRetried(ok));
      if ok {
        Prove(stopTask.session);
        DrainAdmissions(true);
      } else {
        stopTask := NoStop;
      }
    }

    method OnFenceTorn(ok: bool)
      requires Inv(Now()) && fence.FenceTearing?
      modifies this
      ensures Now() == FenceTorn(old(Now()), ok)
      ensures Keeps(old(Now()), Now()) && Inv(Now())
      ensures TearsDown(old(Now()), Now(), ok)
    {
      hide Inv, Keeps, TearsDown;
      FenceTornMeans(Now(), ok);
      NextInv(Now(), EFenceTorn(ok));
      if ok {
        Prove(fence.session);
        status := Stopped;
        fence := FenceDone;
      } else {
        fence := FenceFailed;
      }
    }

    method OnWriteFailed()
      requires Inv(Now())
      modifies this
      ensures Now() == WriteFailed(old(Now()))
      ensures Keeps(old(Now()), Now()) && Inv(Now())
    {
      hide Inv, Keeps, Fences;
      NextInv(Now(), EWriteFailed);
      CloseFence();
    }
  }

  // ---- What the stretches come to ----

  /**
   * The first close refuses input, outdates every generation and begins the one teardown of the
   * session there is; a later one changes nothing.
   */
  ghost predicate Fences(before: State, after: State) {
    && (Inv(before) ==> Keeps(before, after) && after.stopped)
    && Fenced(after) && (forall gen :: !Current(after, gen))
    && after.session == before.session && after.launches == before.launches
    && if before.fence != FenceOpen then after == before
       else
         && after.stopped && after.generation == before.generation + 1
         && (before.session.Some? ==> after.fence == FenceTearing(before.session.value) && after.status == before.status)
         && (before.session.None? ==> after.fence == FenceDone && after.status == Stopped)
  }

  lemma FenceMeans(s: State)
    ensures Fences(s, WriteFailed(s))
  {
    if Inv(s) {
      WriteFailedInv(s);
    }
    hide Keeps;
  }

  /** The new session is owned while its spawn has yet to begin, and resumes the published thread if there is one. */
  ghost predicate OwnsFirst(before: State, after: State, id: CreationId, gen: nat) {
    && after.session.Some? && after.creation == Spawning(id, gen, after.session.value)
    && after.session.value in after.launches
    && after.launches == before.launches[after.session.value := after.launches[after.session.value]]
    && (before.threadId.Some? <==> after.launches[after.session.value].resuming)
    && (before.threadId.Some? ==> after.launches[after.session.value].thread == before.threadId.value)
    && (before.threadId.None? ==> before.nextThread <= after.launches[after.session.value].thread.n < after.nextThread)
    && (Inv(before) ==> after.session.value !in before.launches)
  }

  lemma ConstructMeans(s: State, id: CreationId, gen: nat)
    ensures OwnsFirst(s, Create(s, id, gen), id, gen)
    ensures Inv(s) && NoneAlive(s) && Current(s, gen) && s.starting == Some(id) ==> Keeps(s, Create(s, id, gen))
  {
    if Inv(s) && NoneAlive(s) && Current(s, gen) && s.starting == Some(id) {
      CreateInv(s, id, gen);
    }
    hide Keeps, Current, NoneAlive;
  }

  /**
   * A caller is refused, gets the live session, or joins the one creation under way; a creation
   * begins exactly when none is under way and no session is live. It begins by stopping the session
   * that is held, or else with a new session, about to be spawned.
   */
  ghost predicate OneCreation(before: State, after: State, alive: bool, wait: Wait) {
    && (Inv(before) ==> Keeps(before, after))
    && (wait.Refused? <==> before.stopped)
    && (wait.Have? ==> alive && before.session == Some(wait.session))
    && (wait.Joined? ==> after.starting == Some(wait.id))
    && if before.stopped || before.starting.Some? || (before.session.Some? && alive) then after == before
       else
         && after.nextCreation == before.nextCreation + 1
         && (before.session.Some? ==> after.launches == before.launches && after.session == before.session)
         && (Current(before, before.generation) ==>
               if before.session.None? then OwnsFirst(before, after, CreationId(before.nextCreation), before.generation)
               else after.creation == StoppingPrevious(CreationId(before.nextCreation), before.generation, before.session.value))
  }

  lemma EnsureMeans(s: State, alive: bool)
    ensures OneCreation(s, Ensure(s, alive), alive, EnsureWait(s, alive))
  {
    if Inv(s) {
      EnsureInv(s, alive);
    }
    hide Keeps, Inv;
  }

  /**
   * A session is replaced exactly in the current generation and after its stop succeeded, with every
   * session before it proved stopped; otherwise the creation has failed.
   */
  ghost predicate ReplacesProven(before: State, after: State, ok: bool) {
    && before.creation.StoppingPrevious?
    && (after.launches != before.launches ==>
          ok && Current(before, before.creation.gen) && before.launches.Keys <= after.proven)
    && (ok && Current(before, before.creation.gen) ==> OwnsFirst(before, after, before.creation.id, before.creation.gen))
    && (!ok ==> after.session == before.session && after.proven == before.proven)
    && (!ok || !Current(before, before.creation.gen) ==>
          after.creation == Idle && after.settled == before.settled[before.creation.id := None])
  }

  lemma PreviousStoppedMeans(s: State, ok: bool)
    requires Inv(s) && s.creation.StoppingPrevious?
    ensures ReplacesProven(s, PreviousStopped(s, ok), ok)
  {
    if ok {
      StopEndedInv(s, s.creation.previous, ok);
      var t := StopEnded(s, s.creation.previous, ok);
      assert NoneAlive(t);
      assert forall p | p in t.launches.Keys :: p in Alive(t) || p in t.proven;
    }
    hide Keeps, Inv;
  }

  /** A creation that failed stops its session, unless the runtime is stopped; then it is left to that teardown. */
  ghost predicate CreationFails(before: State, after: State)
    requires before.creation.Spawning? || before.creation.Publishing?
  {
    if before.stopped then after.creation == Idle && after.settled == before.settled[before.creation.id := None]
    else after.creation == FailStopping(before.creation.id, before.creation.session) && after.settled == before.settled
  }

  /** A spawn that succeeded in the current generation goes on to publish the very session; any other has failed. */
  ghost predicate GoesOnToPublish(before: State, after: State, ok: bool) {
    && before.creation.Spawning? && after.launches == before.launches && after.session == before.session
    && if ok && Current(before, before.creation.gen) then
         && after.creation == Publishing(before.creation.id, before.creation.gen, before.creation.session)
         && after.settled == before.settled
       else CreationFails(before, after)
  }

  lemma SpawnedMeans(s: State, ok: bool)
    requires s.creation.Spawning?
    ensures GoesOnToPublish(s, Spawned(s, ok), ok)
  {
  }

  /**
   * A thread is kept only after its write landed in the current generation. After a failed write
   * the fence is closed, the creation has failed and its session is left to the fence's teardown.
   */
  ghost predicate KeepsThread(before: State, after: State, ok: bool) {
    && before.creation.Publishing? && before.creation.session in before.launches
    && after.launches == before.launches && after.session == before.session
    && (ok && Current(before, before.creation.gen) ==>
          && after.threadId == Some(before.launches[before.creation.session].thread)
          && after.settled == before.settled[before.creation.id := Some(before.creation.session)])
    && (!ok || !Current(before, before.creation.gen) ==> after.threadId == before.threadId)
    && (!ok ==> Fenced(after) && after.creation == Idle && after.settled == before.settled[before.creation.id := None])
    && (ok && !Current(before, before.creation.gen) ==> CreationFails(before, after))
  }

  lemma PublishedMeans(s: State, ok: bool)
    requires Inv(s) && s.creation.Publishing? && s.creation.session in s.launches
    ensures KeepsThread(s, Published(s, ok), ok)
  {
    assert FenceOk(s);
    hide Inv;
  }

  /** A failed creation lets its session go only once that is proved stopped; then nothing is alive. */
  ghost predicate GivesUp(before: State, after: State, ok: bool) {
    && before.creation.FailStopping? && after.creation == Idle
    && after.settled == before.settled[before.creation.id := None]
    && (after.session != before.session ==> ok && before.session == Some(before.creation.session) && after.session.None?)
    && (ok ==> NoneAlive(after))
  }

  lemma FailStoppedMeans(s: State, ok: bool)
    requires Inv(s) && s.creation.FailStopping?
    ensures GivesUp(s, FailStopped(s, ok), ok)
  {
    if ok {
      StopEndedInv(s, s.creation.session, ok);
    }
    hide Keeps, Inv;
  }

  /** A runtime that is stopped, starting or ready begins no start; a start begins in the current generation. */
  ghost predicate StartsOnce(before: State, after: State) {
    && (before.stopped || before.start != NoStart || before.status == Ready ==> after == before)
    && (after != before ==>
          after.start == StartPublishing(after.generation) && Current(after, after.generation) && after.status == Starting)
    && (!before.stopped && before.start == NoStart && before.status != Ready && !Fenced(before) ==> after != before)
    && after.launches == before.launches && after.generation == before.generation
  }

  lemma StartMeans(s: State)
    ensures StartsOnce(s, StartCalled(s))
  {
  }

  /** A write that landed changes nothing else; one that failed closes the fence, and no generation is current any more. */
  ghost predicate WritesOrFences(before: State, after: State, ok: bool) {
    && after.session == before.session && after.launches == before.launches && after.submits == before.submits
    && (ok ==> after.fence == before.fence && after.stopped == before.stopped && after.status == before.status)
    && (!ok ==> Fenced(after) && forall gen :: !Current(after, gen))
  }

  ghost predicate GoesOnOrFences(before: State, after: State, ok: bool) {
    && before.start.StartPublishing? && WritesOrFences(before, after, ok)
    && after.start == if ok then Materializing(before.start.gen) else NoStart
  }

  lemma StartPublishedMeans(s: State, ok: bool)
    requires s.start.StartPublishing?
    ensures GoesOnOrFences(s, StartPublished(s, ok), ok)
  {
  }

  ghost predicate ReportsOrFences(before: State, after: State, ok: bool) {
    WritesOrFences(before, after, ok) && after.start == NoStart
  }

  lemma StartReportedMeans(s: State, ok: bool)
    ensures ReportsOrFences(s, StartReported(s, ok), ok)
  {
  }

  ghost predicate ResolvesOrFences(before: State, after: State, ok: bool) {
    WritesOrFences(before, after, ok) && after.stop == StopResolved
  }

  lemma StopMarkedMeans(s: State, ok: bool)
    ensures ResolvesOrFences(s, StopMarked(s, ok), ok)
  {
  }

  /** A failed start reports itself degraded, unless it was overtaken by a stop or a failed write. */
  ghost predicate StartFails(before: State, after: State, gen: nat) {
    if !before.stopped && gen == before.generation then after.start == StartDegrading && after.status == Degraded
    else after.start == NoStart && after.status == before.status
  }

  /** A start asks for a session only in its own generation, and only as every caller does. */
  ghost predicate SpawnsCurrent(before: State, after: State, ok: bool, alive: bool) {
    && before.start.Materializing?
    && if ok && Current(before, before.start.gen) then
         && after.start.StartEnsuring? && after.start.gen == before.start.gen
         && !after.start.wait.Refused?
         && OneCreation(before, after.(start := before.start), alive, after.start.wait)
       else
         && after.launches == before.launches && after.starting == before.starting && after.creation == before.creation
         && StartFails(before, after, before.start.gen)
  }

  lemma MaterializedMeans(s: State, ok: bool, alive: bool)
    requires s.start.Materializing?
    ensures SpawnsCurrent(s, Materialized(s, ok, alive), ok, alive)
  {
    EnsureMeans(s, alive);
    EnsureLeavesStart(s, alive);
    hide OneCreation, Ensure;
  }

  lemma EnsureLeavesStart(s: State, alive: bool)
    ensures Ensure(s, alive).start == s.start
  {
  }

  /** What a wait ends with: nothing after a refusal, the session there was, or what the creation came to. */
  ghost predicate Gives(s: State, wait: Wait, got: Option<Sess>) {
    && (wait.Refused? ==> got == None)
    && (wait.Have? ==> got == Some(wait.session))
    && (wait.Joined? ==> wait.id in s.settled && got == s.settled[wait.id])
  }

  lemma WaitedGives(s: State, wait: Wait, got: Option<Sess>)
    requires WaitOver(s, wait)
    ensures Gives(s, wait, got) <==> got == Waited(s, wait)
  {
  }

  /** Ready is reported only with a session and in the current generation. */
  ghost predicate ReadyOnlyWith(before: State, after: State) {
    && before.start.StartEnsuring? && WaitOver(before, before.start.wait)
    && (after.start.StartMarking? <==>
          (exists p :: Gives(before, before.start.wait, Some(p))) && Current(before, before.start.gen))
    && (after.start.StartMarking? ==> after.status == Ready && after.start.gen == before.start.gen)
    && (!after.start.StartMarking? ==> StartFails(before, after, before.start.gen))
    && after.launches == before.launches && after.submits == before.submits
  }

  lemma StartEnsuredMeans(s: State)
    requires s.start.StartEnsuring? && WaitOver(s, s.start.wait)
    ensures ReadyOnlyWith(s, StartEnsured(s))
  {
    WaitedGives(s, s.start.wait, Waited(s, s.start.wait));
    forall p ensures Gives(s, s.start.wait, Some(p)) <==> Some(p) == Waited(s, s.start.wait) {
      WaitedGives(s, s.start.wait, Some(p));
    }
    hide Gives, Waited;
  }

  /** A submission is new and tracked; a stopped runtime answers it, any other makes it wait for a session. */
  ghost predicate Tracks(before: State, after: State, id: SubmitId, alive: bool) {
    && id !in before.submits && id in after.submits && id in after.pending
    && if before.stopped then after.submits[id] == Decided(AnsweredStopped) && after.launches == before.launches
       else
         && after.submits[id].Ensuring?
         && (match after.submits[id].wait
             case Refused => false
             case Have(p) => alive && after.session == Some(p)
             case Joined(creation) => after.starting == Some(creation))
  }

  lemma SubmitMeans(s: State, alive: bool)
    requires Inv(s)
    ensures Tracks(s, SubmitCalled(s, alive), SubmitId(s.nextSubmit), alive)
  {
    assert SubmitId(s.nextSubmit) !in s.submits;
    EnsureMeans(s, alive);
    hide Ensure, EnsureWait, Keeps, Inv;
  }

  /** A stop met meanwhile answers `stopped`, a creation that failed answers `failed`; otherwise the session is asked. */
  ghost predicate AnswersOrGoesOn(before: State, after: State, id: SubmitId) {
    && id in before.submits && before.submits[id].Ensuring? && WaitOver(before, before.submits[id].wait)
    && id in after.submits && after.submits == before.submits[id := after.submits[id]]
    && (after.submits[id] == Decided(AnsweredStopped) <==> before.stopped)
    && (after.submits[id] == Decided(AnsweredFailed) <==> !before.stopped && Gives(before, before.submits[id].wait, None))
    && (after.submits[id].Submitting? <==> !before.stopped && exists p :: Gives(before, before.submits[id].wait, Some(p)))
    && (after.submits[id].Submitting? ==> Gives(before, before.submits[id].wait, Some(after.submits[id].session)))
    && (after.submits[id] == Decided(AnsweredFailed) ==> Fenced(after) || after.status == Degraded)
  }

  lemma SubmitEnsuredMeans(s: State, id: SubmitId)
    requires id in s.submits && s.submits[id].Ensuring? && WaitOver(s, s.submits[id].wait)
    ensures AnswersOrGoesOn(s, SubmitEnsured(s, id), id)
  {
    var wait := s.submits[id].wait;
    WaitedGives(s, wait, None);
    forall p ensures Gives(s, wait, Some(p)) <==> Some(p) == Waited(s, wait) {
      WaitedGives(s, wait, Some(p));
    }
    hide Gives, Waited;
  }

  /** The session's word is the answer; readiness comes back only for the live session the runtime holds. */
  ghost predicate SessionDecides(before: State, after: State, id: SubmitId, submitted: bool, alive: bool) {
    && id in before.submits && before.submits[id].Submitting?
    && after.submits == before.submits[id := Decided(AnsweredBySession(submitted))]
    && (after.status != before.status ==>
          && after.status == Ready && submitted && alive && before.session == Some(before.submits[id].session)
          && !before.stopped && !Fenced(before))
    && (submitted && alive && before.session == Some(before.submits[id].session) && !before.stopped && !Fenced(before) ==>
          after.status == Ready)
  }

  lemma SubmitAnsweredMeans(s: State, id: SubmitId, submitted: bool, alive: bool)
    requires id in s.submits && s.submits[id].Submitting?
    ensures SessionDecides(s, SubmitAnswered(s, id, submitted, alive), id, submitted, alive)
  {
  }

  /** The exit of a session that was replaced, or after a stop, is noted and no more. */
  ghost predicate HeedsOwnExit(before: State, after: State, p: Sess) {
    && SameOwnership(before, after) && after.status == before.status && after.exited == before.exited + {p}
    && after.exiting == before.exiting + if before.session == Some(p) && !before.stopped then {p} else {}
  }

  lemma ExitMeans(s: State, p: Sess)
    ensures HeedsOwnExit(s, Exited(s, p), p)
  {
  }

  /** The session that exited is let go only once it is proved stopped. */
  ghost predicate DropsIfProved(before: State, after: State, p: Sess, ok: bool) {
    && (after.session != before.session ==> ok && before.session == Some(p) && after.session.None?)
    && (ok ==> p in after.proven && after.session != Some(p))
    && (!ok ==> after.proven == before.proven)
    && after.status == (if Fenced(before) || (ok && before.stopped) then before.status else Degraded)
    && after.exiting == before.exiting - {p}
    && after.launches == before.launches
  }

  lemma ExitStoppedMeans(s: State, p: Sess, ok: bool)
    ensures DropsIfProved(s, ExitStopped(s, p, ok), p, ok)
  {
  }

  /**
   * Stop goes on exactly when no admission is pending, and then every submission has its answer;
   * otherwise it waits for all that have none.
   */
  ghost predicate GoesOnWhenDrained(before: State, after: State, fatal: bool) {
    && (before.pending == {} <==> after.stop == if fatal then StopResolved else StopMarking)
    && (before.pending == {} ==> after.status == Stopped && (SubmitsOk(before) ==> AllDecided(after)))
    && (before.pending != {} ==>
          && after.stop.StopDraining? && after.stop.fatal == fatal && after.status == before.status
          && (SubmitsOk(before) ==> forall id | id in after.submits && !after.submits[id].Decided? :: id in after.stop.awaited))
  }

  lemma DrainMeans(s: State, fatal: bool)
    ensures GoesOnWhenDrained(s, Drain(s, fatal), fatal)
  {
  }

  /** A stop joins one under way or the fatal teardown; any other outdates every generation at once. */
  ghost predicate FencesInput(before: State, after: State) {
    && after.launches == before.launches && after.session == before.session
    && (before.stop != NoStop || (before.status == Stopped && !Fenced(before)) ==> after == before)
    && (before.stop == NoStop && Fenced(before) ==> after == before.(stop := FatalJoining))
    && (before.stop == NoStop && !Fenced(before) && before.status != Stopped ==>
          && after.stop == StopSettling && after.stopped && after.status == Stopping && after.generation == before.generation + 1
          && forall gen :: !Current(after, gen))
  }

  lemma StopMeans(s: State)
    ensures FencesInput(s, StopCalled(s))
  {
  }

  /** After its write the stop waits for the session that is there now; without one nothing is alive. */
  ghost predicate AwaitsWhatIsThere(before: State, after: State) {
    && after.session == before.session && after.launches == before.launches
    && (before.session.Some? ==> after.stop == StopAwaiting(before.session.value) && Alive(after) <= {before.session.value})
    && (before.session.None? ==> NoneAlive(after) && (after.stop == StopMarking ==> AllDecided(after)))
  }

  lemma StopSettledMeans(s: State, ok: bool)
    requires Inv(s) && s.stop.StopSettling?
    ensures AwaitsWhatIsThere(s, StopSettled(s, ok))
  {
    StopSettledInv(s, ok);
    assert StopOk(StopSettled(s, ok));
    hide Keeps, Inv;
  }

  /** A session that could not be proved stopped fails the stop and stays referenced; otherwise nothing is alive. */
  ghost predicate ProvesOrFails(before: State, after: State, ok: bool) {
    if ok then
      && NoneAlive(after) && after.stop != NoStop
      && (after.stop == StopMarking <==> before.pending == {}) && (after.stop == StopMarking ==> AllDecided(after))
    else after.stop == NoStop && after.session == before.session && after.proven == before.proven
  }

  lemma StopProvedMeans(s: State, ok: bool)
    requires Inv(s) && s.stop.StopAwaiting?
    ensures ProvesOrFails(s, StopProved(s, ok), ok)
  {
    StopProvedInv(s, ok);
    assert StopOk(StopProved(s, ok));
    hide Keeps, Inv;
  }

  /** A stop after the fatal teardown retries the session that left, if any; without one nothing is alive. */
  ghost predicate RetriesWhatIsLeft(before: State, after: State) {
    && after.session == before.session
    && if before.fence.FenceFailed? && before.session.Some? then after.stop == FatalRetrying(before.session.value)
       else NoneAlive(after) && (after.stop.StopResolved? ==> AllDecided(after))
  }

  lemma FatalJoinedMeans(s: State)
    requires Inv(s) && s.stop.FatalJoining? && (s.fence.FenceDone? || s.fence.FenceFailed?)
    ensures RetriesWhatIsLeft(s, FatalJoined(s))
  {
    FatalJoinedInv(s);
    assert StopOk(FatalJoined(s));
    hide Keeps, Inv;
  }

  /** It resolves only if the retry succeeded and every submission has its answer; a failed one keeps the reference. */
  ghost predicate ResolvesOnlyIf(before: State, after: State, ok: bool) {
    && (after.stop.StopResolved? ==> ok && NoneAlive(after) && AllDecided(after))
    && (ok ==> NoneAlive(after) && (after.stop.StopResolved? <==> before.pending == {}))
    && (!ok ==> after.stop == NoStop && after.session == before.session)
  }

  lemma FatalRetriedMeans(s: State, ok: bool)
    requires Inv(s) && s.stop.FatalRetrying?
    ensures ResolvesOnlyIf(s, FatalRetried(s, ok), ok)
  {
    FatalRetriedInv(s, ok);
    assert StopOk(FatalRetried(s, ok));
    hide Keeps, Inv;
  }

  /** The session is let go and the status set only when the teardown succeeded; then nothing is alive. */
  ghost predicate TearsDown(before: State, after: State, ok: bool) {
    && before.fence.FenceTearing?
    && if ok then after.fence == FenceDone && after.status == Stopped && NoneAlive(after) && after.session != Some(before.fence.session)
       else after.fence == FenceFailed && after.status == before.status && after.session == before.session
  }

  lemma FenceTornMeans(s: State, ok: bool)
    requires Inv(s) && s.fence.FenceTearing?
    ensures TearsDown(s, FenceTorn(s, ok), ok)
  {
    StopEndedInv(s, s.fence.session, ok);
    hide Keeps, Inv;
  }
}
