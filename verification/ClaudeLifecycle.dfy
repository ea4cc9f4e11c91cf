/**
 * The life of a Claude Code runtime: start, submissions that respawn the session, the session's
 * own exit, stop and a fatal state write racing each other. Every event is one stretch of code
 * between two awaits.
 *
 * Contract of a session: its stop may fail; once a stop succeeds its child is gone and none is
 * spawned for it again.
 */
module ClaudeLifecycle {
  import opened Wrappers

  datatype Sess = Sess(n: nat)

  datatype Thread = Thread(n: nat)

  datatype CreationId = CreationId(n: nat)

  datatype SubmitId = SubmitId(n: nat)

  datatype Status = Declared | Starting | Ready | Degraded | Stopping | Stopped

  /** The native thread a session was launched on, and whether it resumes that thread. */
  datatype Launch = Launch(thread: Thread, resuming: bool)

  /** What `ensureSession` handed its caller: a refusal, the live session, or a creation to wait for. */
  datatype Wait = Refused | Have(session: Sess) | Joined(id: CreationId)

  datatype Creation =
    | Idle
    | StoppingPrevious(id: CreationId, gen: nat, previous: Sess)
    | Spawning(id: CreationId, gen: nat, session: Sess)
    | Publishing(id: CreationId, gen: nat, session: Sess)
    | FailStopping(id: CreationId, session: Sess)

  datatype Start =
    | NoStart
    | StartPublishing(gen: nat)
    | Materializing(gen: nat)
    | StartEnsuring(gen: nat, wait: Wait)
    | StartDegrading
    | StartMarking(gen: nat)

  datatype Answer = AnsweredStopped | AnsweredFailed | AnsweredBySession(submitted: bool)

  datatype Submit = Ensuring(wait: Wait) | Submitting(session: Sess) | Decided(answer: Answer)

  datatype Stop =
    | NoStop
    | StopSettling
    | StopAwaiting(session: Sess)
    | StopDraining(awaited: set<SubmitId>, fatal: bool)
    | StopMarking
    | FatalJoining
    | FatalRetrying(session: Sess)
    | StopResolved

  datatype Fence = FenceOpen | FenceTearing(session: Sess) | FenceDone | FenceFailed

  datatype State = State(
    session: Option<Sess>,
    stopped: bool,
    generation: nat,
    status: Status,
    threadId: Option<Thread>,
    starting: Option<CreationId>,
    creation: Creation,
    settled: map<CreationId, Option<Sess>>,
    start: Start,
    submits: map<SubmitId, Submit>,
    pending: set<SubmitId>,
    stop: Stop,
    fence: Fence,
    exited: set<Sess>,
    exiting: set<Sess>,
    launches: map<Sess, Launch>,
    proven: set<Sess>,
    nextSession: nat,
    nextThread: nat,
    nextCreation: nat,
    nextSubmit: nat)

  /** A runtime before its first event, with the thread it is to resume, if any. */
  function Initial(prior: Option<Thread>): State {
    State(None, false, 0, Declared, prior, None, Idle, map[], NoStart, map[], {}, NoStop, FenceOpen, {}, {}, map[], {},
          0, if prior.Some? then prior.value.n + 1 else 0, 0, 0)
  }

  // ---- Shared stretches ----

  predicate Fenced(s: State) {
    !s.fence.FenceOpen?
  }

  /** The generation guard every step of a start or a creation passes. */
  predicate Current(s: State, gen: nat) {
    !s.stopped && !Fenced(s) && gen == s.generation
  }

  /** A background status; a fenced runtime keeps the status its teardown gave it. */
  function SetStatus(s: State, status: Status): State {
    if Fenced(s) then s else s.(status := status)
  }

  /** A state write failed: the first failure closes the fence, refuses input and starts its teardown. */
  function WriteFailed(s: State): State {
    if Fenced(s) then s
    else if s.session.Some? then
      s.(stopped := true, generation := s.generation + 1, fence := FenceTearing(s.session.value))
    else s.(stopped := true, generation := s.generation + 1, fence := FenceDone, status := Stopped)
  }

  function Wrote(s: State, ok: bool): State {
    if ok then s else WriteFailed(s)
  }

  /** A call to `session.stop()` is over; only success lets the reference go. */
  function StopEnded(s: State, p: Sess, ok: bool): State {
    if ok then s.(proven := s.proven + {p}, session := if s.session == Some(p) then None else s.session) else s
  }

  // ---- Creating a session ----

  /** How the next session is launched: on the published thread when there is one. */
  function NextLaunch(s: State): Launch {
    if s.threadId.Some? then Launch(s.threadId.value, true) else Launch(Thread(s.nextThread), false)
  }

  /** The session is owned before it is started. */
  function Create(s: State, id: CreationId, gen: nat): State {
    var p := Sess(s.nextSession);
    s.(session := Some(p), launches := s.launches[p := NextLaunch(s)], nextSession := s.nextSession + 1,
       nextThread := s.nextThread + 1, creation := Spawning(id, gen, p))
  }

  function Settle(s: State, id: CreationId, outcome: Option<Sess>): State {
    s.(creation := Idle, settled := s.settled[id := outcome])
  }

  function Begin(s: State): State {
    var id := CreationId(s.nextCreation);
    var begun := s.(nextCreation := s.nextCreation + 1, starting := Some(id));
    if !Current(s, s.generation) then Settle(begun, id, None)
    else if s.session.Some? then begun.(creation := StoppingPrevious(id, s.generation, s.session.value))
    else Create(begun, id, s.generation)
  }

  predicate MustCreate(s: State, alive: bool) {
    !s.stopped && s.starting.None? && !(s.session.Some? && alive)
  }

  function Ensure(s: State, alive: bool): State {
    if MustCreate(s, alive) then Begin(s) else s
  }

  function EnsureWait(s: State, alive: bool): Wait {
    if s.stopped then Refused
    else if s.starting.Some? then Joined(s.starting.value)
    else if s.session.Some? && alive then Have(s.session.value)
    else Joined(CreationId(s.nextCreation))
  }

  function PreviousStopped(s: State, ok: bool): State
    requires s.creation.StoppingPrevious?
  {
    var c := s.creation;
    var t := StopEnded(s, c.previous, ok);
    if ok && Current(t, c.gen) then Create(t, c.id, c.gen) else Settle(t, c.id, None)
  }

  /** A creation that failed stops its session, unless the runtime's own teardown owns that. */
  function CreationFailed(s: State, id: CreationId, p: Sess): State {
    if s.stopped then Settle(s, id, None) else s.(creation := FailStopping(id, p))
  }

  function Spawned(s: State, ok: bool): State
    requires s.creation.Spawning?
  {
    var c := s.creation;
    if ok && Current(s, c.gen) then s.(creation := Publishing(c.id, c.gen, c.session)) else CreationFailed(s, c.id, c.session)
  }

  function Published(s: State, ok: bool): State
    requires s.creation.Publishing? && s.creation.session in s.launches
  {
    var c := s.creation;
    var w := Wrote(s, ok);
    if ok && Current(w, c.gen) then
      Settle(w.(threadId := Some(s.launches[c.session].thread)), c.id, Some(c.session))
    else CreationFailed(w, c.id, c.session)
  }

  function FailStopped(s: State, ok: bool): State
    requires s.creation.FailStopping?
  {
    Settle(StopEnded(s, s.creation.session, ok), s.creation.id, None)
  }

  function Released(s: State): State {
    s.(starting := None)
  }

  predicate WaitOver(s: State, wait: Wait) {
    wait.Joined? ==> wait.id in s.settled
  }

  function Waited(s: State, wait: Wait): Option<Sess>
    requires WaitOver(s, wait)
  {
    match wait
    case Refused => None
    case Have(p) => Some(p)
    case Joined(id) => s.settled[id]
  }

  // ---- start() ----

  function StartCalled(s: State): State {
    if s.stopped || s.start != NoStart || s.status == Ready || Fenced(s) then s
    else s.(start := StartPublishing(s.generation), status := Starting)
  }

  function StartPublished(s: State, ok: bool): State
    requires s.start.StartPublishing?
  {
    if ok then s.(start := Materializing(s.start.gen)) else WriteFailed(s).(start := NoStart)
  }

  /** A failed start reports itself degraded unless it was overtaken. */
  function StartFailed(s: State, gen: nat): State {
    if !s.stopped && gen == s.generation then s.(status := Degraded, start := StartDegrading) else s.(start := NoStart)
  }

  function Materialized(s: State, ok: bool, alive: bool): State
    requires s.start.Materializing?
  {
    var gen := s.start.gen;
    if ok && Current(s, gen) then Ensure(s, alive).(start := StartEnsuring(gen, EnsureWait(s, alive)))
    else StartFailed(s, gen)
  }

  function StartEnsured(s: State): State
    requires s.start.StartEnsuring? && WaitOver(s, s.start.wait)
  {
    var gen := s.start.gen;
    if Waited(s, s.start.wait).Some? && Current(s, gen) then s.(status := Ready, start := StartMarking(gen))
    else StartFailed(s, gen)
  }

  /** Both the degraded and the ready report end the start, whether or not they land. */
  function StartReported(s: State, ok: bool): State {
    Wrote(s, ok).(start := NoStart)
  }

  // ---- submit() ----

  function Answered(s: State, id: SubmitId, answer: Answer): State {
    s.(submits := s.submits[id := Decided(answer)])
  }

  function SubmitCalled(s: State, alive: bool): State {
    var id := SubmitId(s.nextSubmit);
    var phase := if s.stopped then Decided(AnsweredStopped) else Ensuring(EnsureWait(s, alive));
    Ensure(s, alive).(submits := s.submits[id := phase], pending := s.pending + {id}, nextSubmit := s.nextSubmit + 1)
  }

  function SubmitEnsured(s: State, id: SubmitId): State
    requires id in s.submits && s.submits[id].Ensuring? && WaitOver(s, s.submits[id].wait)
  {
    var got := Waited(s, s.submits[id].wait);
    if s.stopped then Answered(s, id, AnsweredStopped)
    else if got.None? then Answered(SetStatus(s, Degraded), id, AnsweredFailed)
    else s.(submits := s.submits[id := Submitting(got.value)])
  }

  function SubmitAnswered(s: State, id: SubmitId, submitted: bool, alive: bool): State
    requires id in s.submits && s.submits[id].Submitting?
  {
    var recovered := !s.stopped && s.session == Some(s.submits[id].session) && alive && submitted && s.status != Ready;
    Answered(if recovered then SetStatus(s, Ready) else s, id, AnsweredBySession(submitted))
  }

  function SubmitReleased(s: State, id: SubmitId): State {
    s.(pending := s.pending - {id})
  }

  predicate IsDecided(s: State, id: SubmitId) {
    id in s.submits && s.submits[id].Decided?
  }

  // ---- The session exits by itself ----

  function Exited(s: State, p: Sess): State {
    var noted := s.(exited := s.exited + {p});
    if s.session != Some(p) || s.stopped then noted else noted.(exiting := s.exiting + {p})
  }

  function ExitStopped(s: State, p: Sess, ok: bool): State {
    var t := StopEnded(s, p, ok).(exiting := s.exiting - {p});
    if ok && t.stopped then t else SetStatus(t, Degraded)
  }

  // ---- stop() ----

  function StopCalled(s: State): State {
    if s.stop != NoStop then s
    else if Fenced(s) then s.(stop := FatalJoining)
    else if s.status == Stopped then s
    else s.(stopped := true, generation := s.generation + 1, status := Stopping, stop := StopSettling)
  }

  /** Wait for every admission in flight, again and again until none is left. */
  function Drain(s: State, fatal: bool): State {
    if s.pending != {} then s.(stop := StopDraining(s.pending, fatal))
    else if fatal then s.(status := Stopped, stop := StopResolved)
    else s.(status := Stopped, stop := StopMarking)
  }

  function StopSettled(s: State, ok: bool): State {
    var w := Wrote(s, ok);
    if w.session.Some? then w.(stop := StopAwaiting(w.session.value)) else Drain(w, false)
  }

  function StopProved(s: State, ok: bool): State
    requires s.stop.StopAwaiting?
  {
    if ok then Drain(StopEnded(s, s.stop.session, true), false) else s.(stop := NoStop)
  }

  predicate AwaitedDecided(s: State) {
    s.stop.StopDraining? && forall id | id in s.stop.awaited :: IsDecided(s, id)
  }

  function Drained(s: State): State
    requires s.stop.StopDraining?
  {
    Drain(s, s.stop.fatal)
  }

  function StopMarked(s: State, ok: bool): State {
    Wrote(s, ok).(stop := StopResolved)
  }

  function FatalJoined(s: State): State {
    if s.fence.FenceFailed? && s.session.Some? then s.(stop := FatalRetrying(s.session.value)) else Drain(s, true)
  }

  function FatalRetried(s: State, ok: bool): State
    requires s.stop.FatalRetrying?
  {
    if ok then Drain(StopEnded(s, s.stop.session, true), true) else s.(stop := NoStop)
  }

  function FenceTorn(s: State, ok: bool): State
    requires s.fence.FenceTearing?
  {
    if ok then StopEnded(s, s.fence.session, true).(status := Stopped, fence := FenceDone) else s.(fence := FenceFailed)
  }

  // ---- Runs ----

  datatype Event =
    | EStart
    | EStartPublished(ok: bool)
    | EMaterialized(ok: bool, alive: bool)
    | EStartEnsured
    | EStartReported(ok: bool)
    | EPreviousStopped(ok: bool)
    | ESpawned(ok: bool)
    | EPublished(ok: bool)
    | EFailStopped(ok: bool)
    | EReleased
    | ESubmit(alive: bool)
    | ESubmitEnsured(id: SubmitId)
    | ESubmitAnswered(id: SubmitId, submitted: bool, alive: bool)
    | ESubmitReleased(id: SubmitId)
    | EExit(p: Sess)
    | EExitStopped(p: Sess, ok: bool)
    | EStop
    | EStopSettled(ok: bool)
    | EStopProved(ok: bool)
    | EDrained
    | EStopMarked(ok: bool)
    | EFatalJoined
    | EFatalRetried(ok: bool)
    | EFenceTorn(ok: bool)
    | EWriteFailed // a detached write

  predicate Enabled(s: State, e: Event) {
    match e
    case EStart => true
    case EStartPublished(_) => s.start.StartPublishing?
    case EMaterialized(_, _) => s.start.Materializing?
    case EStartEnsured => s.start.StartEnsuring? && WaitOver(s, s.start.wait)
    case EStartReported(_) => s.start.StartDegrading? || s.start.StartMarking?
    case EPreviousStopped(_) => s.creation.StoppingPrevious?
    case ESpawned(_) => s.creation.Spawning?
    case EPublished(_) => s.creation.Publishing? && s.creation.session in s.launches
    case EFailStopped(_) => s.creation.FailStopping?
    case EReleased => s.starting.Some? && s.creation.Idle?
    case ESubmit(_) => true
    case ESubmitEnsured(id) => id in s.submits && s.submits[id].Ensuring? && WaitOver(s, s.submits[id].wait)
    case ESubmitAnswered(id, _, _) => id in s.submits && s.submits[id].Submitting?
    case ESubmitReleased(id) => IsDecided(s, id)
    case EExit(p) => p in s.launches && p !in s.exited
    case EExitStopped(p, _) => p in s.exiting
    case EStop => true
    case EStopSettled(_) => s.stop.StopSettling?
    case EStopProved(_) => s.stop.StopAwaiting?
    case EDrained => AwaitedDecided(s)
    case EStopMarked(_) => s.stop.StopMarking?
    case EFatalJoined => s.stop.FatalJoining? && (s.fence.FenceDone? || s.fence.FenceFailed?)
    case EFatalRetried(_) => s.stop.FatalRetrying?
    case EFenceTorn(_) => s.fence.FenceTearing?
    case EWriteFailed => true
  }

  function Next(s: State, e: Event): State
    requires Enabled(s, e)
  {
    match e
    case EStart => StartCalled(s)
    case EStartPublished(ok) => StartPublished(s, ok)
    case EMaterialized(ok, alive) => Materialized(s, ok, alive)
    case EStartEnsured => StartEnsured(s)
    case EStartReported(ok) => StartReported(s, ok)
    case EPreviousStopped(ok) => PreviousStopped(s, ok)
    case ESpawned(ok) => Spawned(s, ok)
    case EPublished(ok) => Published(s, ok)
    case EFailStopped(ok) => FailStopped(s, ok)
    case EReleased => Released(s)
    case ESubmit(alive) => SubmitCalled(s, alive)
    case ESubmitEnsured(id) => SubmitEnsured(s, id)
    case ESubmitAnswered(id, submitted, alive) => SubmitAnswered(s, id, submitted, alive)
    case ESubmitReleased(id) => SubmitReleased(s, id)
    case EExit(p) => Exited(s, p)
    case EExitStopped(p, ok) => ExitStopped(s, p, ok)
    case EStop => StopCalled(s)
    case EStopSettled(ok) => StopSettled(s, ok)
    case EStopProved(ok) => StopProved(s, ok)
    case EDrained => Drained(s)
    case EStopMarked(ok) => StopMarked(s, ok)
    case EFatalJoined => FatalJoined(s)
    case EFatalRetried(ok) => FatalRetried(s, ok)
    case EFenceTorn(ok) => FenceTorn(s, ok)
    case EWriteFailed => WriteFailed(s)
  }

  ghost predicate Reaches(s: State, events: seq<Event>, end: State)
    decreases |events|
  {
    if events == [] then s == end
    else Enabled(s, events[0]) && Reaches(Next(s, events[0]), events[1..], end)
  }
}
