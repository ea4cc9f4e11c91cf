/**
 * The life of a Codex runtime: starts, restarts, stops and fatal state writes racing each
 * other. Every event is one stretch of code between two awaits.
 *
 * Contract of a process: its reap may fail; once a reap succeeds the process is gone.
 */
module CodexLifecycle {
  import opened Wrappers

  datatype Proc = Proc(n: nat)

  datatype Client = Client(n: nat)

  datatype RestartId = RestartId(n: nat)

  datatype Status = Declared | Launching | Ready | Degraded | Closing | Stopped

  /** What one teardown captured when it began. */
  datatype Teardown = Teardown(process: Option<Proc>, client: Option<Client>)

  datatype Start =
    | NoStart
    | StartPublishing(gen: nat)
    | StartConnecting(gen: nat)
    | StartMarking(gen: nat)
    | StartDegrading
    | StartCleaning(wasStopping: bool, t: Teardown)

  datatype RestartPhase =
    | Publishing
    | Tearing(t: Teardown)
    | Connecting
    | Marking
    | Cleaning(t: Teardown)
    | Degrading

  datatype Restart = Restart(gen: nat, phase: RestartPhase)

  /** `sealed` records whether the runtime could still spawn when this stop began. */
  datatype Stop =
    | NoStop
    | StopTearing(t: Teardown, sealed: bool)
    | StopSettling(sealed: bool)
    | FatalJoining
    | FatalRetrying(t: Teardown)
    | StopResolved(sealed: bool)

  datatype Fence = FenceOpen | FenceTearing(t: Teardown) | FenceDone | FenceFailed

  datatype State = State(
    process: Option<Proc>,
    client: Option<Client>,
    stopping: bool,
    generation: nat,
    status: Status,
    startOutcome: bool,
    start: Start,
    restarts: map<RestartId, Restart>,
    nextRestart: nat,
    restarting: bool,
    timer: bool,
    stop: Stop,
    fence: Fence,
    created: set<Proc>,
    reaped: set<Proc>,
    nextProc: nat,
    nextClient: nat)

  const INITIAL: State :=
    State(None, None, false, 0, Declared, false, NoStart, map[], 0, false, false, NoStop, FenceOpen, {}, {}, 0, 0)

  // ---- Shared stretches ----

  predicate Fenced(s: State) {
    !s.fence.FenceOpen?
  }

  /** The generation guard every startup step passes. */
  predicate Current(s: State, gen: nat) {
    !s.stopping && !Fenced(s) && gen == s.generation
  }

  function SetStatus(s: State, status: Status): State {
    if Fenced(s) then s else s.(status := status)
  }

  function Capture(s: State): Teardown {
    Teardown(s.process, s.client)
  }

  /** A state write failed: the first failure closes the fence and starts its teardown. */
  function WriteFailed(s: State): State {
    if Fenced(s) then s
    else s.(fence := FenceTearing(Capture(s)), stopping := true, generation := s.generation + 1, timer := false)
  }

  /** What a finished teardown changes: only what it captured, and only where its part succeeded. */
  function Torn(s: State, t: Teardown, reaped: bool, closed: bool): State {
    s.(reaped := if reaped && t.process.Some? then s.reaped + {t.process.value} else s.reaped,
       process := if reaped && s.process == t.process then None else s.process,
       client := if closed && s.client == t.client then None else s.client)
  }

  predicate MaySpawn(s: State, gen: nat) {
    Current(s, gen) && s.process.None?
  }

  function Spawn(s: State): State {
    var p := Proc(s.nextProc);
    s.(created := s.created + {p}, nextProc := s.nextProc + 1, process := Some(p))
  }

  function Open(s: State): State {
    s.(client := Some(Client(s.nextClient)), nextClient := s.nextClient + 1)
  }

  // ---- start() ----

  predicate StartRefused(s: State) {
    s.start != NoStart || s.stopping || s.stop != NoStop || s.status == Stopped || (s.status == Ready && s.startOutcome)
  }

  function StartCalled(s: State): State {
    if StartRefused(s) then s
    else
      SetStatus(s.(restarting := false, generation := s.generation + 1, timer := false,
                   start := StartPublishing(s.generation + 1)), Launching)
  }

  /** A failed start reports itself degraded, unless it was overtaken, and then cleans up. */
  function StartFailed(s: State, gen: nat): State {
    if !s.stopping && gen == s.generation then SetStatus(s, Degraded).(start := StartDegrading) else StartClean(s)
  }

  function StartClean(s: State): State {
    s.(timer := false, start := StartCleaning(s.stopping, Capture(s)), stopping := true)
  }

  function StartPublished(s: State, ok: bool): State
    requires s.start.StartPublishing?
  {
    var gen := s.start.gen;
    if !ok then WriteFailed(s).(start := NoStart)
    else if MaySpawn(s, gen) then Spawn(s).(start := StartConnecting(gen))
    else StartFailed(s, gen)
  }

  datatype Progress = Opened | Advanced | Connected | Broke | WriteBroke

  /** One await of connecting is over: the client opens, a request answers, or something fails. */
  function StartConnected(s: State, progress: Progress): State
    requires s.start.StartConnecting?
  {
    var gen := s.start.gen;
    if progress == WriteBroke then StartFailed(WriteFailed(s), gen)
    else if progress == Broke || !Current(s, gen) then StartFailed(s, gen)
    else if progress == Opened then Open(s)
    else if progress == Advanced then s
    else SetStatus(s, Ready).(start := StartMarking(gen))
  }

  function StartMarked(s: State, ok: bool): State
    requires s.start.StartMarking?
  {
    var gen := s.start.gen;
    if !ok then StartFailed(WriteFailed(s), gen)
    else if !Current(s, gen) then StartFailed(s, gen)
    else s.(start := NoStart, startOutcome := true)
  }

  function StartDegraded(s: State, ok: bool): State {
    StartClean(if ok then s else WriteFailed(s))
  }

  /** Only a cleanup that converged puts the stop flag back to what it was before. */
  function StartCleaned(s: State, reaped: bool, closed: bool, rest: bool): State
    requires s.start.StartCleaning?
  {
    Torn(s, s.start.t, reaped, closed).(
      start := NoStart,
      stopping := if reaped && closed && rest then s.start.wasStopping else true)
  }

  // ---- Restarts ----

  /** The child exited or its connection closed. */
  function Disconnected(s: State): State {
    if s.stopping || s.timer || s.restarting then s else SetStatus(s, Degraded).(timer := true)
  }

  function TimerFired(s: State): State
    requires s.timer
  {
    var fired := s.(timer := false);
    if s.stopping then fired
    else
      SetStatus(fired.(restarting := true, nextRestart := s.nextRestart + 1,
                       restarts := s.restarts[RestartId(s.nextRestart) := Restart(s.generation, Publishing)]), Launching)
  }

  function At(s: State, id: RestartId, phase: RestartPhase): State
    requires id in s.restarts
  {
    s.(restarts := s.restarts[id := s.restarts[id].(phase := phase)])
  }

  function RestartFailed(s: State, id: RestartId): State
    requires id in s.restarts
  {
    At(s, id, Cleaning(Capture(s)))
  }

  function RestartOver(s: State, id: RestartId): State {
    s.(restarts := s.restarts - {id}, restarting := false)
  }

  function RestartPublished(s: State, id: RestartId, ok: bool): State
    requires id in s.restarts
  {
    if !ok then RestartFailed(WriteFailed(s), id) else At(s, id, Tearing(Capture(s)))
  }

  function RestartTorn(s: State, id: RestartId, reaped: bool, closed: bool, rest: bool): State
    requires id in s.restarts && s.restarts[id].phase.Tearing?
  {
    var torn := Torn(s, s.restarts[id].phase.t, reaped, closed);
    if reaped && closed && rest && MaySpawn(torn, s.restarts[id].gen) then At(Spawn(torn), id, Connecting)
    else RestartFailed(torn, id)
  }

  function RestartConnected(s: State, id: RestartId, progress: Progress): State
    requires id in s.restarts
  {
    var gen := s.restarts[id].gen;
    if progress == WriteBroke then RestartFailed(WriteFailed(s), id)
    else if progress == Broke || !Current(s, gen) then RestartFailed(s, id)
    else if progress == Opened then Open(s)
    else if progress == Advanced then s
    else At(SetStatus(s, Ready), id, Marking)
  }

  function RestartMarked(s: State, id: RestartId, ok: bool): State
    requires id in s.restarts
  {
    if !ok then RestartFailed(WriteFailed(s), id)
    else if !Current(s, s.restarts[id].gen) then RestartFailed(s, id)
    else RestartOver(s, id)
  }

  function RestartCleaned(s: State, id: RestartId, reaped: bool, closed: bool): State
    requires id in s.restarts && s.restarts[id].phase.Cleaning?
  {
    var torn := Torn(s, s.restarts[id].phase.t, reaped, closed);
    if s.stopping || s.restarts[id].gen != s.generation then RestartOver(torn, id)
    else At(SetStatus(torn, Degraded), id, Degrading)
  }

  /** The failure has been reported; the next attempt is scheduled unless that is refused. */
  function RestartDegraded(s: State, id: RestartId, ok: bool): State {
    Disconnected(RestartOver(if ok then s else WriteFailed(s), id))
  }

  // ---- stop() ----

  /** From here on no process can be created: see `SealedForever`. */
  predicate Sealed(s: State) {
    Fenced(s) || (s.stopping && (s.start.StartCleaning? ==> s.start.wasStopping))
  }

  function StopCalled(s: State): State {
    if s.stop != NoStop then s
    else if Fenced(s) then s.(stop := FatalJoining)
    else if s.status == Stopped then s
    else
      var refusing := if s.stopping then s else s.(stopping := true, generation := s.generation + 1);
      SetStatus(refusing.(timer := false, stop := StopTearing(Capture(s), Sealed(refusing))), Closing)
  }

  function StopTorn(s: State, reaped: bool, closed: bool, rest: bool): State
    requires s.stop.StopTearing?
  {
    Torn(s, s.stop.t, reaped, closed).(stop := if reaped && closed && rest then StopSettling(s.stop.sealed) else NoStop)
  }

  function StopSettled(s: State): State
    requires s.stop.StopSettling?
  {
    SetStatus(s, Stopped).(stop := StopResolved(s.stop.sealed))
  }

  function FatalJoined(s: State): State {
    if s.fence.FenceDone? then s.(status := Stopped, stop := StopResolved(true))
    else s.(stop := FatalRetrying(Capture(s)))
  }

  function FatalRetried(s: State, reaped: bool, closed: bool, rest: bool): State
    requires s.stop.FatalRetrying?
  {
    var torn := Torn(s, s.stop.t, reaped, closed);
    if reaped && closed && rest then torn.(status := Stopped, stop := StopResolved(true)) else torn.(stop := NoStop)
  }

  function FenceTorn(s: State, reaped: bool, closed: bool, rest: bool): State
    requires s.fence.FenceTearing?
  {
    var torn := Torn(s, s.fence.t, reaped, closed);
    if reaped && closed && rest then torn.(status := Stopped, fence := FenceDone) else torn.(fence := FenceFailed)
  }

  // ---- Runs ----

  datatype Event =
    | EStart
    | EStartPublished(ok: bool)
    | EStartConnected(progress: Progress)
    | EStartMarked(ok: bool)
    | EStartDegraded(ok: bool)
    | EStartCleaned(reaped: bool, closed: bool, rest: bool)
    | EChildExit
    | EClientClose
    | ETimer
    | ERestartPublished(id: RestartId, ok: bool)
    | ERestartTorn(id: RestartId, reaped: bool, closed: bool, rest: bool)
    | ERestartConnected(id: RestartId, progress: Progress)
    | ERestartMarked(id: RestartId, ok: bool)
    | ERestartCleaned(id: RestartId, reaped: bool, closed: bool)
    | ERestartDegraded(id: RestartId, ok: bool)
    | EStop
    | EStopTorn(reaped: bool, closed: bool, rest: bool)
    | EStopSettled
    | EFatalJoined
    | EFatalRetried(reaped: bool, closed: bool, rest: bool)
    | EFenceTorn(reaped: bool, closed: bool, rest: bool)
    | EWriteFailed // a detached or settled write


  predicate Enabled(s: State, e: Event) {
    match e
    case EStart => true
    case EStartPublished(_) => s.start.StartPublishing?
    case EStartConnected(_) => s.start.StartConnecting?
    case EStartMarked(_) => s.start.StartMarking?
    case EStartDegraded(_) => s.start.StartDegrading?
    case EStartCleaned(_, _, _) => s.start.StartCleaning?
    case EChildExit => s.process.Some?
    case EClientClose => s.client.Some?
    case ETimer => s.timer
    case ERestartPublished(id, _) => id in s.restarts && s.restarts[id].phase.Publishing?
    case ERestartTorn(id, _, _, _) => id in s.restarts && s.restarts[id].phase.Tearing?
    case ERestartConnected(id, _) => id in s.restarts && s.restarts[id].phase.Connecting?
    case ERestartMarked(id, _) => id in s.restarts && s.restarts[id].phase.Marking?
    case ERestartCleaned(id, _, _) => id in s.restarts && s.restarts[id].phase.Cleaning?
    case ERestartDegraded(id, _) => id in s.restarts && s.restarts[id].phase.Degrading?
    case EStop => true
    case EStopTorn(_, _, _) => s.stop.StopTearing?
    case EStopSettled => s.stop.StopSettling?
    case EFatalJoined => s.stop.FatalJoining? && (s.fence.FenceDone? || s.fence.FenceFailed?)
    case EFatalRetried(_, _, _) => s.stop.FatalRetrying?
    case EFenceTorn(_, _, _) => s.fence.FenceTearing?
    case EWriteFailed => true
  }

  function Next(s: State, e: Event): State
    requires Enabled(s, e)
  {
    match e
    case EStart => StartCalled(s)
    case EStartPublished(ok) => StartPublished(s, ok)
    case EStartConnected(progress) => StartConnected(s, progress)
    case EStartMarked(ok) => StartMarked(s, ok)
    case EStartDegraded(ok) => StartDegraded(s, ok)
    case EStartCleaned(reaped, closed, rest) => StartCleaned(s, reaped, closed, rest)
    case EChildExit => Disconnected(s)
    case EClientClose => Disconnected(s)
    case ETimer => TimerFired(s)
    case ERestartPublished(id, ok) => RestartPublished(s, id, ok)
    case ERestartTorn(id, reaped, closed, rest) => RestartTorn(s, id, reaped, closed, rest)
    case ERestartConnected(id, progress) => RestartConnected(s, id, progress)
    case ERestartMarked(id, ok) => RestartMarked(s, id, ok)
    case ERestartCleaned(id, reaped, closed) => RestartCleaned(s, id, reaped, closed)
    case ERestartDegraded(id, ok) => RestartDegraded(s, id, ok)
    case EStop => StopCalled(s)
    case EStopTorn(reaped, closed, rest) => StopTorn(s, reaped, closed, rest)
    case EStopSettled => StopSettled(s)
    case EFatalJoined => FatalJoined(s)
    case EFatalRetried(reaped, closed, rest) => FatalRetried(s, reaped, closed, rest)
    case EFenceTorn(reaped, closed, rest) => FenceTorn(s, reaped, closed, rest)
    case EWriteFailed => WriteFailed(s)
  }

  ghost predicate Reaches(s: State, events: seq<Event>, end: State)
    decreases |events|
  {
    if events == [] then s == end
    else Enabled(s, events[0]) && Reaches(Next(s, events[0]), events[1..], end)
  }
}
