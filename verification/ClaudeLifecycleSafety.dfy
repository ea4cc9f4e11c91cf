/** What every run of a Claude Code runtime keeps: no session is unowned, and stop is final. */
module ClaudeLifecycleSafety {
  import opened Wrappers
  import opened ClaudeLifecycle

  /** The sessions created and not proved stopped. */
  function Alive(s: State): set<Sess> {
    s.launches.Keys - s.proven
  }

  function Held(session: Option<Sess>): set<Sess> {
    if session.Some? then {session.value} else {}
  }

  /** Every session ever created, other than the one in `session`, is proved stopped. */
  ghost predicate Owned(s: State) {
    && Alive(s) <= Held(s.session)
    && (forall p | p in s.launches :: p.n < s.nextSession)
  }

  predicate NoneAlive(s: State) {
    Alive(s) == {}
  }

  /** Whoever waits for a session's stop waits for the only one that can be alive. */
  ghost predicate CreationOk(s: State) {
    match s.creation
    case Idle => true
    case StoppingPrevious(id, _, p) => s.starting == Some(id) && Alive(s) <= {p}
    case Spawning(id, _, p) => s.starting == Some(id) && Alive(s) <= {p} && p in s.launches
    case Publishing(id, _, p) => s.starting == Some(id) && Alive(s) <= {p} && p in s.launches
    case FailStopping(id, p) => s.starting == Some(id) && Alive(s) <= {p}
  }

  /** A session being published carries the thread already published, if there is one. */
  ghost predicate ThreadOk(s: State) {
    s.threadId.Some? && (s.creation.Spawning? || s.creation.Publishing?) && s.creation.session in s.launches ==>
      s.launches[s.creation.session].thread == s.threadId.value
  }

  ghost predicate FenceOk(s: State) {
    && (Fenced(s) ==> s.stopped)
    && match s.fence
       case FenceTearing(p) => Alive(s) <= {p}
       case FenceDone => NoneAlive(s)
       case _ => true
  }

  /** No admission is open: each submission ever made has its answer. */
  ghost predicate AllDecided(s: State) {
    forall id | id in s.submits :: s.submits[id].Decided?
  }

  ghost predicate SubmitsOk(s: State) {
    && (forall id | id in s.submits :: id.n < s.nextSubmit)
    && (forall id | id in s.submits :: s.submits[id].Decided? || id in s.pending)
  }

  ghost predicate StopOk(s: State) {
    && (s.stop != NoStop ==> s.stopped)
    && match s.stop
       case StopAwaiting(p) => Alive(s) <= {p}
       case StopDraining(_, _) => NoneAlive(s)
       case StopMarking => NoneAlive(s) && AllDecided(s)
       case FatalJoining => Fenced(s)
       case FatalRetrying(p) => Alive(s) <= {p}
       case StopResolved => NoneAlive(s) && AllDecided(s)
       case _ => true
  }

  ghost predicate Inv(s: State) {
    Owned(s) && CreationOk(s) && ThreadOk(s) && FenceOk(s) && SubmitsOk(s) && StopOk(s)
  }

  /** Nothing is created once the runtime is stopped, and a stop that resolved stays resolved. */
  ghost predicate Sealed(before: State, after: State) {
    && (before.stopped ==> after.stopped && after.launches == before.launches)
    && (before.stop.StopResolved? ==> after.stop.StopResolved?)
    && (Fenced(before) ==> Fenced(after))
  }

  /** A published thread is kept, and every later session resumes it. */
  ghost predicate Continues(before: State, after: State) {
    && (forall p | p in before.launches :: p in after.launches && after.launches[p] == before.launches[p])
    && (before.threadId.Some? ==>
          && after.threadId == before.threadId
          && forall p | p in after.launches && p !in before.launches :: after.launches[p] == Launch(before.threadId.value, true))
  }

  /** An answer given is never changed, and what is submitted to a stopped runtime is answered at once. */
  ghost predicate Answers(before: State, after: State) {
    && (forall id | id in before.submits :: id in after.submits)
    && (forall id | id in before.submits && before.submits[id].Decided? :: after.submits[id] == before.submits[id])
    && (before.stopped ==> forall id | id in after.submits && id !in before.submits :: after.submits[id] == Decided(AnsweredStopped))
  }

  ghost predicate Keeps(before: State, after: State) {
    Inv(after) && Sealed(before, after) && Continues(before, after) && Answers(before, after)
  }

  // ---- The stretches every event is made of ----

  /** A stretch that touches neither submissions nor launches. */
  lemma Quiet(before: State, after: State)
    requires after.submits == before.submits && after.pending == before.pending && after.nextSubmit == before.nextSubmit
    requires after.launches == before.launches && after.threadId == before.threadId
    ensures Continues(before, after) && Answers(before, after)
    ensures SubmitsOk(before) ==> SubmitsOk(after)
    ensures AllDecided(after) == AllDecided(before)
  {
  }

  /** A stretch that neither creates, stops nor drops a session. */
  lemma Undisturbed(before: State, after: State)
    requires after.session == before.session && after.launches == before.launches && after.proven == before.proven
    requires after.starting == before.starting && after.creation == before.creation
    requires after.threadId == before.threadId && after.nextSession == before.nextSession
    ensures Owned(before) && CreationOk(before) && ThreadOk(before) ==> Owned(after) && CreationOk(after) && ThreadOk(after)
    ensures Alive(after) == Alive(before)
  {
  }

  lemma WriteFailedInv(s: State)
    requires Inv(s)
    ensures Keeps(s, WriteFailed(s))
  {
    var w := WriteFailed(s);
    Quiet(s, w);
    Undisturbed(s, w);
    assert s.session.None? ==> NoneAlive(s);
    assert s.session.Some? ==> Alive(s) <= {s.session.value};
    hide Continues, Answers, SubmitsOk, AllDecided, Owned, CreationOk, ThreadOk, Alive;
  }

  lemma StopEndedInv(s: State, p: Sess, ok: bool)
    requires Inv(s)
    ensures Keeps(s, StopEnded(s, p, ok))
    ensures ok && Alive(s) <= {p} ==> NoneAlive(StopEnded(s, p, ok))
  {
    Quiet(s, StopEnded(s, p, ok));
    hide Continues, Answers, SubmitsOk, AllDecided;
    assert Alive(StopEnded(s, p, ok)) <= Alive(s);
  }

  lemma Unmoved(s: State)
    requires Inv(s)
    ensures Keeps(s, s)
  {
  }

  /** Only the start, the status, the exits or the counters differ. */
  predicate SameOwnership(s: State, after: State) {
    && after.session == s.session && after.stopped == s.stopped && after.threadId == s.threadId
    && after.starting == s.starting && after.creation == s.creation
    && after.submits == s.submits && after.pending == s.pending && after.nextSubmit == s.nextSubmit
    && after.stop == s.stop && after.fence == s.fence
    && after.launches == s.launches && after.proven == s.proven && after.nextSession == s.nextSession
  }

  lemma Framed(before: State, s: State, after: State)
    requires Keeps(before, s) && SameOwnership(s, after)
    ensures Keeps(before, after)
  {
  }

  lemma Reported(before: State, s: State, start: Start, status: Status)
    requires Keeps(before, s)
    ensures Keeps(before, s.(start := start, status := status))
  {
    hide Inv, Keeps;
    Framed(before, s, s.(start := start, status := status));
  }

  lemma CreateInv(s: State, id: CreationId, gen: nat)
    requires Inv(s) && Current(s, gen) && NoneAlive(s) && s.starting == Some(id)
    ensures Keeps(s, Create(s, id, gen))
  {
    assert Alive(Create(s, id, gen)) <= {Sess(s.nextSession)};
  }

  lemma BeginInv(s: State)
    requires Inv(s) && !s.stopped && s.starting.None?
    ensures Keeps(s, Begin(s))
  {
    var id := CreationId(s.nextCreation);
    var begun := s.(nextCreation := s.nextCreation + 1, starting := Some(id));
    assert s.creation.Idle?;
    if s.session.None? {
      assert Inv(begun);
      CreateInv(begun, id, s.generation);
    }
  }

  lemma EnsureInv(s: State, alive: bool)
    requires Inv(s)
    ensures Keeps(s, Ensure(s, alive))
    ensures Ensure(s, alive).submits == s.submits && Ensure(s, alive).pending == s.pending
    ensures Ensure(s, alive).nextSubmit == s.nextSubmit && Ensure(s, alive).stopped == s.stopped && Ensure(s, alive).stop == s.stop
  {
    if MustCreate(s, alive) {
      BeginInv(s);
    }
  }

  lemma StoppedCreatesNothing(s: State, alive: bool)
    requires s.stopped
    ensures Ensure(s, alive) == s && EnsureWait(s, alive) == Refused
  {
  }

  lemma SettleInv(before: State, s: State, id: CreationId, outcome: Option<Sess>)
    requires Keeps(before, s)
    ensures Keeps(before, Settle(s, id, outcome))
  {
  }

  lemma CreationFailedInv(before: State, s: State, id: CreationId, p: Sess)
    requires Keeps(before, s) && Alive(s) <= {p} && s.starting == Some(id)
    ensures Keeps(before, CreationFailed(s, id, p))
  {
  }

  // ---- Every event ----

  lemma PreviousStoppedInv(s: State, ok: bool)
    requires Inv(s) && s.creation.StoppingPrevious?
    ensures Keeps(s, PreviousStopped(s, ok))
  {
    var c := s.creation;
    var t := StopEnded(s, c.previous, ok);
    StopEndedInv(s, c.previous, ok);
    SettleInv(s, t, c.id, None);
    if ok && Current(t, c.gen) {
      CreateInv(t, c.id, c.gen);
    }
  }

  lemma SpawnedInv(s: State, ok: bool)
    requires Inv(s) && s.creation.Spawning?
    ensures Keeps(s, Spawned(s, ok))
  {
    CreationFailedInv(s, s, s.creation.id, s.creation.session);
  }

  lemma PublishedInv(s: State, ok: bool)
    requires Inv(s) && s.creation.Publishing? && s.creation.session in s.launches
    ensures Keeps(s, Published(s, ok))
  {
    WriteFailedInv(s);
    CreationFailedInv(s, Wrote(s, ok), s.creation.id, s.creation.session);
  }

  lemma FailStoppedInv(s: State, ok: bool)
    requires Inv(s) && s.creation.FailStopping?
    ensures Keeps(s, FailStopped(s, ok))
  {
    hide Inv, Keeps;
    var t := StopEnded(s, s.creation.session, ok);
    StopEndedInv(s, s.creation.session, ok);
    SettleInv(s, t, s.creation.id, None);
  }

  lemma MaterializedInv(s: State, ok: bool, alive: bool)
    requires Inv(s) && s.start.Materializing?
    ensures Keeps(s, Materialized(s, ok, alive))
  {
    EnsureInv(s, alive);
    Unmoved(s);
    hide Inv, Keeps, Ensure, EnsureWait;
    var t := Ensure(s, alive);
    Reported(s, t, StartEnsuring(s.start.gen, EnsureWait(s, alive)), t.status);
    Reported(s, s, StartDegrading, Degraded);
    Reported(s, s, NoStart, s.status);
  }

  lemma SubmitCalledInv(s: State, alive: bool)
    requires Inv(s)
    ensures Keeps(s, SubmitCalled(s, alive))
  {
    EnsureInv(s, alive);
    var t := Ensure(s, alive);
    var after := SubmitCalled(s, alive);
    hide Ensure;
    assert SubmitId(s.nextSubmit) !in s.submits;
    assert s.stopped ==> t.submits == s.submits;
    assert Inv(after) by {
      assert Inv(t);
    }
  }

  lemma SubmitEnsuredInv(s: State, id: SubmitId)
    requires Inv(s) && id in s.submits && s.submits[id].Ensuring? && WaitOver(s, s.submits[id].wait)
    ensures Keeps(s, SubmitEnsured(s, id))
  {
  }

  lemma SubmitAnsweredInv(s: State, id: SubmitId, submitted: bool, alive: bool)
    requires Inv(s) && id in s.submits && s.submits[id].Submitting?
    ensures Keeps(s, SubmitAnswered(s, id, submitted, alive))
  {
  }

  lemma SubmitReleasedInv(s: State, id: SubmitId)
    requires Inv(s) && IsDecided(s, id)
    ensures Keeps(s, SubmitReleased(s, id))
  {
  }

  lemma ExitStoppedInv(s: State, p: Sess, ok: bool)
    requires Inv(s)
    ensures Keeps(s, ExitStopped(s, p, ok))
  {
    StopEndedInv(s, p, ok);
    hide Inv, Keeps;
    Framed(s, StopEnded(s, p, ok), ExitStopped(s, p, ok));
  }

  lemma DrainFrame(s: State, fatal: bool)
    requires Owned(s) && CreationOk(s)
    ensures Owned(Drain(s, fatal)) && CreationOk(Drain(s, fatal))
  {
  }

  lemma KeepsTransitiveRest(a: State, b: State, c: State)
    requires Continues(a, b) && Continues(b, c) && Answers(a, b) && Answers(b, c)
    requires a.stopped ==> b.stopped
    ensures Continues(a, c) && Answers(a, c)
  {
  }

  lemma DrainInv(before: State, s: State, fatal: bool)
    requires Keeps(before, s) && s.stopped && NoneAlive(s) && !before.stop.StopResolved?
    ensures Keeps(before, Drain(s, fatal))
  {
    assert s.pending == {} ==> AllDecided(s);
    Quiet(s, Drain(s, fatal));
    hide SubmitsOk, AllDecided, Owned, CreationOk;
    assert Owned(Drain(s, fatal)) && CreationOk(Drain(s, fatal)) by {
      DrainFrame(s, fatal);
    }
    hide Continues, Answers;
    KeepsTransitiveRest(before, s, Drain(s, fatal));
  }

  lemma StopSettledInv(s: State, ok: bool)
    requires Inv(s) && s.stop.StopSettling?
    ensures Keeps(s, StopSettled(s, ok))
  {
    WriteFailedInv(s);
    var w := Wrote(s, ok);
    assert w.stop == s.stop;
    if w.session.None? {
      DrainInv(s, w, false);
    }
  }

  lemma StopProvedInv(s: State, ok: bool)
    requires Inv(s) && s.stop.StopAwaiting?
    ensures Keeps(s, StopProved(s, ok))
  {
    if ok {
      StopEndedInv(s, s.stop.session, true);
      DrainInv(s, StopEnded(s, s.stop.session, true), false);
    }
  }

  lemma FatalRetriedInv(s: State, ok: bool)
    requires Inv(s) && s.stop.FatalRetrying?
    ensures Keeps(s, FatalRetried(s, ok))
  {
    if ok {
      StopEndedInv(s, s.stop.session, true);
      DrainInv(s, StopEnded(s, s.stop.session, true), true);
    }
  }

  lemma DrainedInv(s: State)
    requires Inv(s) && s.stop.StopDraining?
    ensures Keeps(s, Drained(s))
  {
    Unmoved(s);
    DrainInv(s, s, s.stop.fatal);
  }

  lemma FatalJoinedInv(s: State)
    requires Inv(s) && s.stop.FatalJoining? && (s.fence.FenceDone? || s.fence.FenceFailed?)
    ensures Keeps(s, FatalJoined(s))
  {
    Unmoved(s);
    if !(s.fence.FenceFailed? && s.session.Some?) {
      DrainInv(s, s, true);
    }
  }

  lemma FenceTornInv(s: State, ok: bool)
    requires Inv(s) && s.fence.FenceTearing?
    ensures Keeps(s, FenceTorn(s, ok))
  {
    StopEndedInv(s, s.fence.session, true);
  }

  lemma WroteInv(s: State, ok: bool) returns (w: State)
    requires Inv(s)
    ensures w == Wrote(s, ok) && Keeps(s, w) && w.stop == s.stop
  {
    WriteFailedInv(s);
    w := Wrote(s, ok);
  }

  lemma StartPublishedInv(s: State, ok: bool)
    requires Inv(s) && s.start.StartPublishing?
    ensures Keeps(s, StartPublished(s, ok))
  {
    var w := WroteInv(s, ok);
    hide Inv, Keeps, WriteFailed;
    Framed(s, w, StartPublished(s, ok));
  }

  lemma StartReportedInv(s: State, ok: bool)
    requires Inv(s)
    ensures Keeps(s, StartReported(s, ok))
  {
    var w := WroteInv(s, ok);
    hide Inv, Keeps, WriteFailed;
    Framed(s, w, StartReported(s, ok));
  }

  lemma StartEnsuredInv(s: State)
    requires Inv(s) && s.start.StartEnsuring? && WaitOver(s, s.start.wait)
    ensures Keeps(s, StartEnsured(s))
  {
    Unmoved(s);
    hide Inv, Keeps, Waited;
    Framed(s, s, StartEnsured(s));
  }

  lemma CallInv(s: State, p: Sess)
    requires Inv(s)
    ensures Keeps(s, StartCalled(s)) && Keeps(s, Exited(s, p))
  {
    Unmoved(s);
    hide Inv, Keeps;
    Framed(s, s, StartCalled(s));
    Framed(s, s, Exited(s, p));
  }

  lemma ReleasedInv(s: State)
    requires Inv(s) && s.creation.Idle?
    ensures Keeps(s, Released(s))
  {
    Quiet(s, Released(s));
    hide Continues, Answers, SubmitsOk, AllDecided;
  }

  lemma StopCalledInv(s: State)
    requires Inv(s)
    ensures Keeps(s, StopCalled(s))
  {
    Quiet(s, StopCalled(s));
    hide Continues, Answers, SubmitsOk, AllDecided;
  }

  lemma StopMarkedInv(s: State, ok: bool)
    requires Inv(s) && s.stop.StopMarking?
    ensures Keeps(s, StopMarked(s, ok))
  {
    var w := WroteInv(s, ok);
    Quiet(s, w);
    Quiet(s, StopMarked(s, ok));
    hide Continues, Answers, SubmitsOk, AllDecided, WriteFailed;
  }

  lemma NextInv(s: State, e: Event)
    requires Inv(s) && Enabled(s, e)
    ensures Keeps(s, Next(s, e)) && Inv(Next(s, e))
  {
    assert Keeps(s, Next(s, e)) ==> Inv(Next(s, e));
    hide Inv, Keeps;
    match e {
      case EStart => CallInv(s, Sess(0));
      case EStartPublished(ok) => StartPublishedInv(s, ok);
      case EMaterialized(ok, alive) => MaterializedInv(s, ok, alive);
      case EStartEnsured => StartEnsuredInv(s);
      case EStartReported(ok) => StartReportedInv(s, ok);
      case EPreviousStopped(ok) => PreviousStoppedInv(s, ok);
      case ESpawned(ok) => SpawnedInv(s, ok);
      case EPublished(ok) => PublishedInv(s, ok);
      case EFailStopped(ok) => FailStoppedInv(s, ok);
      case EReleased => ReleasedInv(s);
      case ESubmit(alive) => SubmitCalledInv(s, alive);
      case ESubmitEnsured(id) => SubmitEnsuredInv(s, id);
      case ESubmitAnswered(id, submitted, alive) => SubmitAnsweredInv(s, id, submitted, alive);
      case ESubmitReleased(id) => SubmitReleasedInv(s, id);
      case EExit(p) => CallInv(s, p);
      case EExitStopped(p, ok) => ExitStoppedInv(s, p, ok);
      case EStop => StopCalledInv(s);
      case EStopSettled(ok) => StopSettledInv(s, ok);
      case EStopProved(ok) => StopProvedInv(s, ok);
      case EDrained => DrainedInv(s);
      case EStopMarked(ok) => StopMarkedInv(s, ok);
      case EFatalJoined => FatalJoinedInv(s);
      case EFatalRetried(ok) => FatalRetriedInv(s, ok);
      case EFenceTorn(ok) => FenceTornInv(s, ok);
      case EWriteFailed => WriteFailedInv(s);
    }
  }

  lemma KeepsTransitive(a: State, b: State, c: State)
    requires Keeps(a, b) && Keeps(b, c)
    ensures Keeps(a, c)
  {
  }

  lemma {:induction false} RunInv(s: State, events: seq<Event>, end: State)
    requires Inv(s) && Reaches(s, events, end)
    ensures Keeps(s, end)
    decreases |events|
  {
    if events != [] {
      NextInv(s, events[0]);
      RunInv(Next(s, events[0]), events[1..], end);
      KeepsTransitive(s, Next(s, events[0]), end);
    }
  }

  lemma InitialInv(prior: Option<Thread>)
    ensures Inv(Initial(prior))
  {
  }

  // ---- The theorems ----

  /** In every run, every session created and not proved stopped is the one in `session`; so no two coexist. */
  lemma NoSessionUnowned(prior: Option<Thread>, events: seq<Event>, end: State, p: Sess)
    requires Reaches(Initial(prior), events, end)
    requires p in end.launches && p !in end.proven
    ensures end.session == Some(p)
  {
    InitialInv(prior);
    RunInv(Initial(prior), events, end);
    assert p in Alive(end);
  }

  /**
   * Once a stop has been called, or a state write has failed, no session is ever created. Once
   * the stop has resolved none is alive and no submission is undecided, then or later; and each
   * submission made after the call was answered `stopped`.
   */
  lemma StopIsFinal(prior: Option<Thread>, before: seq<Event>, s: State, after: seq<Event>, end: State)
    requires Reaches(Initial(prior), before, s) && s.stopped
    requires Reaches(s, after, end)
    ensures end.launches == s.launches
    ensures forall id | id in end.submits && id !in s.submits :: end.submits[id] == Decided(AnsweredStopped)
    ensures end.stop.StopResolved? ==> end.launches.Keys <= end.proven
    ensures end.stop.StopResolved? ==> forall id | id in end.submits :: end.submits[id].Decided?
    ensures s.stop.StopResolved? ==> end.stop.StopResolved?
  {
    InitialInv(prior);
    RunInv(Initial(prior), before, s);
    RunInv(s, after, end);
    if end.stop.StopResolved? {
      assert forall p | p in end.launches.Keys :: p in Alive(end) || p in end.proven;
    }
  }

  /** An answered submission keeps its answer whatever happens next. */
  lemma AnswersStand(prior: Option<Thread>, before: seq<Event>, s: State, after: seq<Event>, end: State, id: SubmitId)
    requires Reaches(Initial(prior), before, s) && IsDecided(s, id)
    requires Reaches(s, after, end)
    ensures id in end.submits && end.submits[id] == s.submits[id]
  {
    InitialInv(prior);
    RunInv(Initial(prior), before, s);
    RunInv(s, after, end);
  }

  /** Recovery is continuous: once a thread is published, every later session resumes that thread. */
  lemma RecoveryIsContinuous(prior: Option<Thread>, before: seq<Event>, s: State, after: seq<Event>, end: State, p: Sess)
    requires Reaches(Initial(prior), before, s) && s.threadId.Some?
    requires Reaches(s, after, end) && p in end.launches && p !in s.launches
    ensures end.launches[p] == Launch(s.threadId.value, true)
  {
    InitialInv(prior);
    RunInv(Initial(prior), before, s);
    RunInv(s, after, end);
  }
}
