/** What every run of a Codex runtime keeps: no process is ever unowned. */
module CodexLifecycleSafety {
  import opened Wrappers
  import opened CodexLifecycle

  /** The processes created and not proved gone. */
  function Alive(s: State): set<Proc> {
    s.created - s.reaped
  }

  function Held(process: Option<Proc>): set<Proc> {
    if process.Some? then {process.value} else {}
  }

  /** Every process ever created, other than the one in `process`, has been reaped. */
  ghost predicate Owned(s: State) {
    && Alive(s) <= Held(s.process)
    && (forall p | p in s.created :: p.n < s.nextProc)
  }

  /** `t` captured the only process that may still be alive. */
  predicate Covers(s: State, t: Teardown) {
    Alive(s) <= Held(t.process)
  }

  predicate NoneAlive(s: State) {
    Alive(s) == {}
  }

  ghost predicate StopOk(s: State) {
    match s.stop
    case NoStop => true
    case StopTearing(t, sealed) => sealed ==> Sealed(s) && Covers(s, t)
    case StopSettling(sealed) => sealed ==> Sealed(s) && NoneAlive(s)
    case FatalJoining => Fenced(s)
    case FatalRetrying(t) => Fenced(s) && Covers(s, t)
    case StopResolved(sealed) => sealed ==> Sealed(s) && NoneAlive(s)
  }

  ghost predicate FenceOk(s: State) {
    match s.fence
    case FenceTearing(t) => Covers(s, t)
    case FenceDone => NoneAlive(s)
    case _ => true
  }

  ghost predicate Inv(s: State) {
    && Owned(s)
    && StopOk(s)
    && FenceOk(s)
    && (s.start.StartCleaning? ==> s.stopping)
    && (s.status == Stopped && !Fenced(s) ==> s.stop.StopResolved?)
  }

  // ---- The stretches every event is made of ----

  lemma WriteFailedInv(s: State)
    requires Inv(s)
    ensures Inv(WriteFailed(s)) && (Sealed(s) ==> Sealed(WriteFailed(s)))
  {
  }

  lemma TornInv(s: State, t: Teardown, reaped: bool, closed: bool)
    requires Inv(s)
    ensures Inv(Torn(s, t, reaped, closed)) && Torn(s, t, reaped, closed).created == s.created
    ensures reaped && Covers(s, t) ==> NoneAlive(Torn(s, t, reaped, closed))
  {
  }

  lemma SpawnInv(s: State, gen: nat)
    requires Inv(s) && MaySpawn(s, gen)
    ensures Inv(Spawn(s)) && !Sealed(s)
  {
    assert NoneAlive(s);
    assert Alive(Spawn(s)) <= {Proc(s.nextProc)};
  }

  /** A failed start never unseals: its cleanup only ever raises the stop flag. */
  lemma StartFailedInv(s: State, gen: nat)
    requires Inv(s) && !s.start.StartCleaning?
    ensures Inv(StartFailed(s, gen)) && Inv(StartClean(s))
    ensures Sealed(s) ==> Sealed(StartFailed(s, gen)) && Sealed(StartClean(s))
    ensures StartFailed(s, gen).created == StartClean(s).created == s.created
  {
  }

  /** Every stop in progress or done began sealed. */
  predicate SealedStop(stop: Stop) {
    stop.StopTearing? || stop.StopSettling? || stop.StopResolved? ==> stop.sealed
  }

  /** `after` keeps the invariant of `before`, and a sealed runtime stays sealed and creates nothing. */
  ghost predicate Keeps(before: State, after: State) {
    && Inv(after)
    && (Sealed(before) ==>
          && Sealed(after) && after.created == before.created
          && (SealedStop(before.stop) ==> SealedStop(after.stop)))
  }

  /** The invariant does not look at restarts, timers or generations. */
  lemma KeepsFrame(before: State, s: State, after: State)
    requires Keeps(before, s)
    requires after.process == s.process && after.stopping == s.stopping && after.start == s.start && after.stop == s.stop
    requires after.fence == s.fence && after.created == s.created && after.reaped == s.reaped && after.nextProc == s.nextProc
    requires after.status == Stopped ==> s.status == Stopped
    ensures Keeps(before, after)
  {
  }

  lemma StartPublishedInv(s: State, ok: bool)
    requires Inv(s) && s.start.StartPublishing?
    ensures Keeps(s, StartPublished(s, ok))
  {
    WriteFailedInv(s);
    StartFailedInv(s, s.start.gen);
    if MaySpawn(s, s.start.gen) {
      SpawnInv(s, s.start.gen);
    }
  }

  lemma StartConnectedInv(s: State, progress: Progress)
    requires Inv(s) && s.start.StartConnecting?
    ensures Keeps(s, StartConnected(s, progress))
  {
    WriteFailedInv(s);
    StartFailedInv(s, s.start.gen);
    StartFailedInv(WriteFailed(s), s.start.gen);
  }

  lemma StartMarkedInv(s: State, ok: bool)
    requires Inv(s) && s.start.StartMarking?
    ensures Keeps(s, StartMarked(s, ok))
  {
    WriteFailedInv(s);
    StartFailedInv(s, s.start.gen);
    StartFailedInv(WriteFailed(s), s.start.gen);
  }

  lemma StartDegradedInv(s: State, ok: bool)
    requires Inv(s) && s.start.StartDegrading?
    ensures Keeps(s, StartDegraded(s, ok))
  {
    WriteFailedInv(s);
    StartFailedInv(s, 0);
    StartFailedInv(WriteFailed(s), 0);
  }

  lemma StartCleanedInv(s: State, reaped: bool, closed: bool, rest: bool)
    requires Inv(s) && s.start.StartCleaning?
    ensures Keeps(s, StartCleaned(s, reaped, closed, rest))
  {
    TornInv(s, s.start.t, reaped, closed);
  }

  lemma RestartTornInv(s: State, id: RestartId, reaped: bool, closed: bool, rest: bool)
    requires Inv(s) && id in s.restarts && s.restarts[id].phase.Tearing?
    ensures Keeps(s, RestartTorn(s, id, reaped, closed, rest))
  {
    hide Inv;
    var torn := Torn(s, s.restarts[id].phase.t, reaped, closed);
    TornInv(s, s.restarts[id].phase.t, reaped, closed);
    TornSealed(s, s.restarts[id].phase.t, reaped, closed);
    if MaySpawn(torn, s.restarts[id].gen) {
      SpawnInv(torn, s.restarts[id].gen);
      KeepsFrame(s, Spawn(torn), At(Spawn(torn), id, Connecting));
    }
    KeepsFrame(s, torn, RestartFailed(torn, id));
  }

  lemma TornSealed(s: State, t: Teardown, reaped: bool, closed: bool)
    ensures Sealed(Torn(s, t, reaped, closed)) == Sealed(s) && Torn(s, t, reaped, closed).stop == s.stop
  {
  }

  /** A stretch that at most writes a state and touches its restart otherwise keeps the invariant. */
  lemma WroteInv(s: State, ok: bool) returns (w: State)
    requires Inv(s)
    ensures w == (if ok then s else WriteFailed(s)) && Keeps(s, w)
  {
    WriteFailedInv(s);
    w := if ok then s else WriteFailed(s);
  }

  lemma RestartPublishedInv(s: State, id: RestartId, ok: bool)
    requires Inv(s) && id in s.restarts
    ensures Keeps(s, RestartPublished(s, id, ok))
  {
    var w := WroteInv(s, ok);
    hide Inv, Keeps, WriteFailed;
    KeepsFrame(s, w, RestartPublished(s, id, ok));
  }

  lemma RestartConnectedInv(s: State, id: RestartId, progress: Progress)
    requires Inv(s) && id in s.restarts
    ensures Keeps(s, RestartConnected(s, id, progress))
  {
    var w := WroteInv(s, progress != WriteBroke);
    hide Inv, Keeps, WriteFailed;
    KeepsFrame(s, w, RestartConnected(s, id, progress));
  }

  lemma RestartMarkedInv(s: State, id: RestartId, ok: bool)
    requires Inv(s) && id in s.restarts
    ensures Keeps(s, RestartMarked(s, id, ok))
  {
    var w := WroteInv(s, ok);
    hide Inv, Keeps, WriteFailed;
    KeepsFrame(s, w, RestartMarked(s, id, ok));
  }

  lemma RestartDegradedInv(s: State, id: RestartId, ok: bool)
    requires Inv(s) && id in s.restarts
    ensures Keeps(s, RestartDegraded(s, id, ok))
  {
    var w := WroteInv(s, ok);
    hide Inv, Keeps, WriteFailed;
    KeepsFrame(s, w, RestartDegraded(s, id, ok));
  }

  lemma RestartCleanedInv(s: State, id: RestartId, reaped: bool, closed: bool)
    requires Inv(s) && id in s.restarts && s.restarts[id].phase.Cleaning?
    ensures Keeps(s, RestartCleaned(s, id, reaped, closed))
  {
    hide Inv;
    TornInv(s, s.restarts[id].phase.t, reaped, closed);
    TornSealed(s, s.restarts[id].phase.t, reaped, closed);
    KeepsFrame(s, Torn(s, s.restarts[id].phase.t, reaped, closed), RestartCleaned(s, id, reaped, closed));
  }

  lemma StopTornInv(s: State, reaped: bool, closed: bool, rest: bool)
    requires Inv(s) && s.stop.StopTearing?
    ensures Keeps(s, StopTorn(s, reaped, closed, rest))
  {
    TornInv(s, s.stop.t, reaped, closed);
  }

  lemma FatalRetriedInv(s: State, reaped: bool, closed: bool, rest: bool)
    requires Inv(s) && s.stop.FatalRetrying?
    ensures Keeps(s, FatalRetried(s, reaped, closed, rest))
  {
    TornInv(s, s.stop.t, reaped, closed);
  }

  lemma FenceTornInv(s: State, reaped: bool, closed: bool, rest: bool)
    requires Inv(s) && s.fence.FenceTearing?
    ensures Keeps(s, FenceTorn(s, reaped, closed, rest))
  {
    TornInv(s, s.fence.t, reaped, closed);
  }

  /** Calls and exits only ever touch the start, the timer, the restarts and the status. */
  lemma CallInv(s: State)
    requires Inv(s)
    ensures Keeps(s, StartCalled(s)) && Keeps(s, Disconnected(s))
    ensures s.timer ==> Keeps(s, TimerFired(s))
  {
  }

  lemma StopCalledInv(s: State)
    requires Inv(s)
    ensures Keeps(s, StopCalled(s))
  {
  }

  lemma StopSettledInv(s: State)
    requires Inv(s) && s.stop.StopSettling?
    ensures Keeps(s, StopSettled(s))
  {
  }

  lemma FatalJoinedInv(s: State)
    requires Inv(s) && s.stop.FatalJoining? && (s.fence.FenceDone? || s.fence.FenceFailed?)
    ensures Keeps(s, FatalJoined(s))
  {
  }

  lemma NextInv(s: State, e: Event)
    requires Inv(s) && Enabled(s, e)
    ensures Keeps(s, Next(s, e)) && Inv(Next(s, e))
  {
    assert Keeps(s, Next(s, e)) ==> Inv(Next(s, e));
    hide Inv, Keeps;
    match e {
      case EStartPublished(ok) => StartPublishedInv(s, ok);
      case EStartConnected(progress) => StartConnectedInv(s, progress);
      case EStartMarked(ok) => StartMarkedInv(s, ok);
      case EStartDegraded(ok) => StartDegradedInv(s, ok);
      case EStartCleaned(reaped, closed, rest) => StartCleanedInv(s, reaped, closed, rest);
      case ERestartTorn(id, reaped, closed, rest) => RestartTornInv(s, id, reaped, closed, rest);
      case EStopTorn(reaped, closed, rest) => StopTornInv(s, reaped, closed, rest);
      case EFatalRetried(reaped, closed, rest) => FatalRetriedInv(s, reaped, closed, rest);
      case EFenceTorn(reaped, closed, rest) => FenceTornInv(s, reaped, closed, rest);
      case ERestartPublished(id, ok) => RestartPublishedInv(s, id, ok);
      case ERestartConnected(id, progress) => RestartConnectedInv(s, id, progress);
      case ERestartMarked(id, ok) => RestartMarkedInv(s, id, ok);
      case ERestartCleaned(id, reaped, closed) => RestartCleanedInv(s, id, reaped, closed);
      case ERestartDegraded(id, ok) => RestartDegradedInv(s, id, ok);
      case EStart => CallInv(s);
      case EChildExit => CallInv(s);
      case EClientClose => CallInv(s);
      case ETimer => CallInv(s);
      case EStop => StopCalledInv(s);
      case EStopSettled => StopSettledInv(s);
      case EFatalJoined => FatalJoinedInv(s);
      case EWriteFailed => WriteFailedInv(s);
    }
  }

  lemma {:induction false} RunInv(s: State, events: seq<Event>, end: State)
    requires Inv(s) && Reaches(s, events, end)
    ensures Inv(end)
    ensures Sealed(s) ==> Sealed(end) && end.created == s.created && (SealedStop(s.stop) ==> SealedStop(end.stop))
    decreases |events|
  {
    if events != [] {
      NextInv(s, events[0]);
      RunInv(Next(s, events[0]), events[1..], end);
    }
  }

  // ---- The theorems ----

  /** In every run, every process created and not reaped is the one in `process`; so no two coexist. */
  lemma NoProcessUnowned(events: seq<Event>, end: State, p: Proc)
    requires Reaches(INITIAL, events, end)
    requires p in end.created && p !in end.reaped
    ensures end.process == Some(p)
  {
    RunInv(INITIAL, events, end);
    assert p in Alive(end);
  }

  /** A failed start that began before any stop is being cleaned up, and the fence is open. */
  predicate CleaningUp(s: State) {
    s.start.StartCleaning? && !s.start.wasStopping && !Fenced(s)
  }

  /** A stop seals the runtime exactly when it does not fall into the cleanup of a failed start. */
  lemma StopSeals(events: seq<Event>, s: State)
    requires Reaches(INITIAL, events, s) && s.stop.NoStop?
    ensures Sealed(StopCalled(s)) <==> !CleaningUp(s)
  {
    RunInv(INITIAL, events, s);
  }

  /**
   * A stop called outside such a cleanup is final: from the call on no process is ever created,
   * and whenever a stop has resolved none is alive.
   */
  lemma StopIsFinal(before: seq<Event>, s: State, after: seq<Event>, end: State)
    requires Reaches(INITIAL, before, s) && s.stop.NoStop? && !CleaningUp(s)
    requires Reaches(StopCalled(s), after, end)
    ensures end.created == s.created
    ensures end.stop.StopResolved? ==> end.created <= end.reaped
  {
    RunInv(INITIAL, before, s);
    NextInv(s, EStop);
    StopSeals(before, s);
    RunInv(StopCalled(s), after, end);
    if end.stop.StopResolved? {
      assert NoneAlive(end);
      assert forall p | p in end.created :: p in Alive(end) || p in end.reaped;
    }
  }
}
