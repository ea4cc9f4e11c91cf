/**
 * Exactly when a stop of a Codex runtime is final. A failed start cleans up under the stop flag and
 * lowers it again; a stop called into that cleanup leaves the generation as it is, so a restart that
 * is still under way can go on and create a process after the stop has resolved.
 */
module CodexStopFinality {
  import opened Wrappers
  import opened CodexLifecycle
  import opened CodexLifecycleSafety

  // ---- What a cleanup captured is all there is ----

  predicate CapturesAll(s: State, t: Teardown) {
    (s.process.None? || s.process == t.process) && (s.client.None? || s.client == t.client)
  }

  /** Nothing is spawned or opened during the cleanup of a failed start. */
  predicate CleanOk(s: State) {
    s.start.StartCleaning? ==> s.stopping && CapturesAll(s, s.start.t)
  }

  lemma RestartCleanOk(s: State, e: Event)
    requires CleanOk(s) && Enabled(s, e)
    requires e.ERestartPublished? || e.ERestartTorn? || e.ERestartConnected? || e.ERestartMarked?
    ensures CleanOk(Next(s, e))
  {
  }

  lemma RestartEndCleanOk(s: State, e: Event)
    requires CleanOk(s) && Enabled(s, e)
    requires e.ERestartCleaned? || e.ERestartDegraded? || e.ETimer? || e.EChildExit? || e.EClientClose?
    ensures CleanOk(Next(s, e))
  {
  }

  lemma StartCleanOk(s: State, e: Event)
    requires CleanOk(s) && Enabled(s, e)
    requires e.EStart? || e.EStartPublished? || e.EStartConnected? || e.EStartMarked? || e.EStartDegraded? || e.EStartCleaned?
    ensures CleanOk(Next(s, e))
  {
  }

  lemma StopCleanOk(s: State, e: Event)
    requires CleanOk(s) && Enabled(s, e)
    requires e.EStop? || e.EStopTorn? || e.EStopSettled? || e.EFatalJoined? || e.EFatalRetried? || e.EFenceTorn? || e.EWriteFailed?
    ensures CleanOk(Next(s, e))
  {
  }

  lemma NextCleanOk(s: State, e: Event)
    requires CleanOk(s) && Enabled(s, e)
    ensures CleanOk(Next(s, e))
  {
    hide CleanOk, Enabled, Next;
    if e.EStart? || e.EStartPublished? || e.EStartConnected? || e.EStartMarked? || e.EStartDegraded? || e.EStartCleaned? {
      StartCleanOk(s, e);
    } else if e.ERestartPublished? || e.ERestartTorn? || e.ERestartConnected? || e.ERestartMarked? {
      RestartCleanOk(s, e);
    } else if e.ERestartCleaned? || e.ERestartDegraded? || e.ETimer? || e.EChildExit? || e.EClientClose? {
      RestartEndCleanOk(s, e);
    } else {
      StopCleanOk(s, e);
    }
  }

  lemma {:induction false} RunCleanOk(s: State, events: seq<Event>, end: State)
    requires CleanOk(s) && Reaches(s, events, end)
    ensures CleanOk(end)
    decreases |events|
  {
    if events != [] {
      NextCleanOk(s, events[0]);
      hide CleanOk, Next;
      RunCleanOk(Next(s, events[0]), events[1..], end);
    }
  }

  // ---- The condition ----

  /** A restart that can still come back: one of this generation, or one about to schedule the next. */
  predicate Pending(s: State, id: RestartId) {
    id in s.restarts && (s.restarts[id].gen == s.generation || s.restarts[id].phase.Degrading?)
  }

  ghost predicate Overtakable(s: State) {
    CleaningUp(s) && exists id :: Pending(s, id)
  }

  predicate NoStopIn(events: seq<Event>) {
    forall e | e in events :: e != EStop
  }

  /** Whenever this stop has resolved, no process has been created since its call and every one is reaped. */
  ghost predicate IsFinal(s: State) {
    forall after, end :: Reaches(StopCalled(s), after, end) && NoStopIn(after) && end.stop.StopResolved? ==>
      end.created == s.created && end.created <= end.reaped
  }

  // ---- Without such a restart it is final ----

  /** The stop is under way or resolved, and nothing is left that could spawn. */
  ghost predicate Still(t: State, created: set<Proc>) {
    && t.created == created && !t.timer && !Fenced(t)
    && (t.start.NoStart? || (t.start.StartCleaning? && CleanOk(t)))
    && (forall id | id in t.restarts :: !Pending(t, id))
    && (!t.stopping ==> t.process.None? && t.client.None? && t.start.NoStart?)
  }

  /** The process a stop waits for is the only one there can be, and a stop past that has none left. */
  predicate HeldByStop(t: State) {
    match t.stop
    case StopTearing(c, _) => t.process.None? || t.process == c.process
    case StopSettling(_) => t.process.None?
    case StopResolved(_) => t.process.None?
    case _ => true
  }

  predicate OrdinaryStop(stop: Stop) {
    stop.StopTearing? || stop.StopSettling? || stop.StopResolved?
  }

  ghost predicate Kept(t: State, created: set<Proc>) {
    t.stop.NoStop? || (OrdinaryStop(t.stop) && HeldByStop(t) && Barred(t, created))
  }

  ghost predicate Barred(t: State, created: set<Proc>) {
    (Sealed(t) && t.created == created) || Still(t, created)
  }

  lemma StillRestart(t: State, e: Event, created: set<Proc>)
    requires Still(t, created) && !t.stop.NoStop? && Enabled(t, e)
    requires e.ERestartPublished? || e.ERestartConnected? || e.ERestartMarked?
    ensures Next(t, e).stop.NoStop? || Barred(Next(t, e), created)
  {
    assert !Pending(t, e.id);
  }

  lemma StillTeardown(t: State, e: Event, created: set<Proc>)
    requires Still(t, created) && !t.stop.NoStop? && Enabled(t, e)
    requires e.ERestartTorn? || e.ERestartCleaned? || e.ERestartDegraded?
    ensures Next(t, e).stop.NoStop? || Barred(Next(t, e), created)
  {
    assert !Pending(t, e.id);
  }

  lemma StillOther(t: State, e: Event, created: set<Proc>)
    requires Still(t, created) && !t.stop.NoStop? && Enabled(t, e) && e != EStop
    requires !e.ERestartPublished? && !e.ERestartConnected? && !e.ERestartMarked?
    requires !e.ERestartTorn? && !e.ERestartCleaned? && !e.ERestartDegraded?
    ensures Next(t, e).stop.NoStop? || Barred(Next(t, e), created)
  {
  }

  lemma BarredNext(t: State, e: Event, created: set<Proc>)
    requires Inv(t) && !t.stop.NoStop? && Barred(t, created) && Enabled(t, e) && e != EStop
    ensures Next(t, e).stop.NoStop? || Barred(Next(t, e), created)
  {
    if Sealed(t) && t.created == created {
      NextInv(t, e);
      assert Keeps(t, Next(t, e));
      hide Inv, Next, Enabled, Still;
    } else {
      hide Inv, Still, Next;
      if e.ERestartPublished? || e.ERestartConnected? || e.ERestartMarked? {
        StillRestart(t, e, created);
      } else if e.ERestartTorn? || e.ERestartCleaned? || e.ERestartDegraded? {
        StillTeardown(t, e, created);
      } else {
        StillOther(t, e, created);
      }
    }
  }

  /** A process that nobody created can only go. */
  predicate OnlyGoes(before: State, after: State) {
    after.process.None? || after.process == before.process
  }

  lemma RestartTornOnlyGoes(t: State, e: Event)
    requires Owned(t) && Enabled(t, e) && Next(t, e).created == t.created && e.ERestartTorn?
    ensures OnlyGoes(t, Next(t, e))
  {
    assert Proc(t.nextProc) !in t.created;
    hide Owned;
    assert Proc(t.nextProc) !in Next(t, e).created;
  }

  lemma RestartOnlyGoes(t: State, e: Event)
    requires Enabled(t, e)
    requires e.ERestartPublished? || e.ERestartConnected? || e.ERestartMarked? || e.ERestartCleaned? || e.ERestartDegraded?
    ensures OnlyGoes(t, Next(t, e))
  {
  }

  lemma StartPublishedOnlyGoes(t: State, e: Event)
    requires Owned(t) && Enabled(t, e) && Next(t, e).created == t.created && e.EStartPublished?
    ensures OnlyGoes(t, Next(t, e))
  {
    assert Proc(t.nextProc) !in t.created;
    hide Owned;
    assert Proc(t.nextProc) !in Next(t, e).created;
  }

  lemma StartOnlyGoes(t: State, e: Event)
    requires Enabled(t, e)
    requires e.EStart? || e.EStartConnected? || e.EStartMarked? || e.EStartDegraded? || e.EStartCleaned?
    ensures OnlyGoes(t, Next(t, e))
  {
  }

  /** The stop itself, the fence and the exits. */
  lemma StopHeldNext(t: State, e: Event)
    requires OrdinaryStop(t.stop) && HeldByStop(t) && Enabled(t, e)
    requires e.EStopTorn? || e.EStopSettled? || e.EFenceTorn? || e.EWriteFailed? || e.EChildExit? || e.EClientClose? || e.ETimer?
    ensures var u := Next(t, e); u.stop.NoStop? || (OrdinaryStop(u.stop) && HeldByStop(u))
  {
  }

  lemma HeldNext(t: State, e: Event)
    requires Owned(t) && OrdinaryStop(t.stop) && HeldByStop(t) && Enabled(t, e) && e != EStop
    requires Next(t, e).created == t.created
    ensures var u := Next(t, e); u.stop.NoStop? || (OrdinaryStop(u.stop) && HeldByStop(u))
  {
    assert !e.EFatalJoined? && !e.EFatalRetried?;
    hide Next, Enabled, Owned;
    if e.EStart? || e.EStartPublished? || e.EStartConnected? || e.EStartMarked? || e.EStartDegraded? || e.EStartCleaned? {
      StartLeavesStop(t, e);
      if e.EStartPublished? {
        StartPublishedOnlyGoes(t, e);
      } else {
        StartOnlyGoes(t, e);
      }
    } else if e.ERestartPublished? || e.ERestartTorn? || e.ERestartConnected? || e.ERestartMarked? || e.ERestartCleaned?
      || e.ERestartDegraded? {
      RestartLeavesStop(t, e);
      if e.ERestartTorn? {
        RestartTornOnlyGoes(t, e);
      } else {
        RestartOnlyGoes(t, e);
      }
    } else {
      StopHeldNext(t, e);
    }
  }

  lemma KeptNext(t: State, e: Event, created: set<Proc>)
    requires Inv(t) && Kept(t, created) && Enabled(t, e) && e != EStop
    ensures Kept(Next(t, e), created)
  {
    if t.stop.NoStop? {
      StaysUnstopped(t, e);
    } else {
      assert Owned(t) && t.created == created by {
        assert Still(t, created) ==> t.created == created;
      }
      BarredNext(t, e, created);
      hide Inv, Enabled, Next;
      if !Next(t, e).stop.NoStop? {
        assert Next(t, e).created == created by {
          assert Still(Next(t, e), created) ==> Next(t, e).created == created;
        }
        HeldNext(t, e);
      }
    }
  }

  lemma RestartLeavesStop(t: State, e: Event)
    requires Enabled(t, e)
    requires e.ERestartPublished? || e.ERestartTorn? || e.ERestartConnected? || e.ERestartMarked? || e.ERestartCleaned? || e.ERestartDegraded?
    ensures Next(t, e).stop == t.stop
  {
  }

  lemma StartLeavesStop(t: State, e: Event)
    requires Enabled(t, e)
    requires e.EStart? || e.EStartPublished? || e.EStartConnected? || e.EStartMarked? || e.EStartDegraded? || e.EStartCleaned?
    ensures Next(t, e).stop == t.stop
  {
  }

  /** Only a call makes a stop. */
  lemma StaysUnstopped(t: State, e: Event)
    requires t.stop.NoStop? && Enabled(t, e) && e != EStop
    ensures Next(t, e).stop.NoStop?
  {
    if e.EStart? || e.EStartPublished? || e.EStartConnected? || e.EStartMarked? || e.EStartDegraded? || e.EStartCleaned? {
      StartLeavesStop(t, e);
    } else if e.ERestartPublished? || e.ERestartTorn? || e.ERestartConnected? || e.ERestartMarked? || e.ERestartCleaned?
      || e.ERestartDegraded? {
      RestartLeavesStop(t, e);
    } else {
      assert e.EChildExit? || e.EClientClose? || e.ETimer? || e.EFenceTorn? || e.EWriteFailed?;
    }
  }

  lemma {:induction false} KeptRun(t: State, events: seq<Event>, end: State, created: set<Proc>)
    requires Inv(t) && Kept(t, created) && Reaches(t, events, end) && NoStopIn(events)
    ensures Kept(end, created)
    decreases |events|
  {
    if events != [] {
      assert events[0] in events && forall e | e in events[1..] :: e in events;
      NextInv(t, events[0]);
      hide Inv, Kept, Next;
      KeptNext(t, events[0], created);
      KeptRun(Next(t, events[0]), events[1..], end, created);
    }
  }

  lemma StoppedStill(s: State)
    requires Inv(s) && CleanOk(s) && CleaningUp(s) && !Overtakable(s) && s.stop.NoStop?
    ensures Still(StopCalled(s), s.created)
  {
    var t := StopCalled(s);
    assert t.start == s.start && t.created == s.created && t.stopping && !t.timer;
    hide Inv;
    forall id | id in t.restarts ensures !Pending(t, id) {
      assert !Pending(s, id);
    }
  }

  lemma NothingHeld(t: State)
    requires Owned(t) && t.process.None?
    ensures t.created <= t.reaped
  {
    assert forall p | p in t.created :: p in Alive(t) || p in t.reaped;
  }

  lemma FinalWithout(before: seq<Event>, s: State)
    requires Reaches(INITIAL, before, s) && s.stop.NoStop? && !Overtakable(s)
    ensures IsFinal(s)
  {
    RunInv(INITIAL, before, s);
    RunCleanOk(INITIAL, before, s);
    forall after, end | Reaches(StopCalled(s), after, end) && NoStopIn(after) && end.stop.StopResolved?
      ensures end.created == s.created && end.created <= end.reaped
    {
      if CleaningUp(s) {
        NextInv(s, EStop);
        StoppedStill(s);
        KeptRun(StopCalled(s), after, end, s.created);
        RunInv(StopCalled(s), after, end);
        NothingHeld(end);
      } else {
        StopIsFinal(before, s, after, end);
      }
    }
  }

  // ---- With one it is not ----

  lemma OneMore(s: State, e: Event, events: seq<Event>, end: State)
    requires Enabled(s, e) && e != EStop && NoStopIn(events) && Reaches(Next(s, e), events, end)
    ensures Reaches(s, [e] + events, end) && NoStopIn([e] + events)
  {
    assert ([e] + events)[1..] == events;
  }

  lemma {:induction false} Joined(s: State, first: seq<Event>, m: State, second: seq<Event>, end: State)
    requires Reaches(s, first, m) && Reaches(m, second, end)
    ensures Reaches(s, first + second, end)
    decreases |first|
  {
    if first == [] {
      assert first + second == second;
    } else {
      Joined(Next(s, first[0]), first[1..], m, second, end);
      assert (first + second)[1..] == first[1..] + second;
    }
  }

  /** The stop has resolved and the flag is down again. */
  predicate Reopened(t: State) {
    t.stop.StopResolved? && !t.stopping && !Fenced(t) && !t.timer && t.process.None?
  }

  lemma FromTearing(t: State, id: RestartId) returns (events: seq<Event>, end: State)
    requires Reopened(t) && id in t.restarts && t.restarts[id].phase.Tearing? && t.restarts[id].gen == t.generation
    ensures Reaches(t, events, end) && NoStopIn(events) && end.stop.StopResolved?
    ensures end.created == t.created + {Proc(t.nextProc)} && end.process == Some(Proc(t.nextProc))
  {
    end := RestartTorn(t, id, true, true, true);
    OneMore(t, ERestartTorn(id, true, true, true), [], end);
    events := [ERestartTorn(id, true, true, true)] + [];
  }

  lemma FromPublishing(t: State, id: RestartId) returns (events: seq<Event>, end: State)
    requires Reopened(t) && id in t.restarts && t.restarts[id].phase.Publishing? && t.restarts[id].gen == t.generation
    ensures Reaches(t, events, end) && NoStopIn(events) && end.stop.StopResolved?
    ensures end.created == t.created + {Proc(t.nextProc)} && end.process == Some(Proc(t.nextProc))
  {
    events, end := FromTearing(RestartPublished(t, id, true), id);
    OneMore(t, ERestartPublished(id, true), events, end);
    events := [ERestartPublished(id, true)] + events;
  }

  lemma FromDegrading(t: State, id: RestartId) returns (events: seq<Event>, end: State)
    requires Reopened(t) && id in t.restarts && t.restarts[id].phase.Degrading?
    ensures Reaches(t, events, end) && NoStopIn(events) && end.stop.StopResolved?
    ensures end.created == t.created + {Proc(t.nextProc)} && end.process == Some(Proc(t.nextProc))
  {
    var u := RestartDegraded(t, id, true);
    var v := TimerFired(u);
    events, end := FromPublishing(v, RestartId(u.nextRestart));
    OneMore(u, ETimer, events, end);
    events := [ETimer] + events;
    OneMore(t, ERestartDegraded(id, true), events, end);
    events := [ERestartDegraded(id, true)] + events;
  }

  lemma FromCleaning(t: State, id: RestartId) returns (events: seq<Event>, end: State)
    requires Reopened(t) && id in t.restarts && t.restarts[id].phase.Cleaning? && t.restarts[id].gen == t.generation
    ensures Reaches(t, events, end) && NoStopIn(events) && end.stop.StopResolved?
    ensures end.created == t.created + {Proc(t.nextProc)} && end.process == Some(Proc(t.nextProc))
  {
    events, end := FromDegrading(RestartCleaned(t, id, true, true), id);
    OneMore(t, ERestartCleaned(id, true, true), events, end);
    events := [ERestartCleaned(id, true, true)] + events;
  }

  lemma FromConnecting(t: State, id: RestartId) returns (events: seq<Event>, end: State)
    requires Reopened(t) && id in t.restarts && t.restarts[id].phase.Connecting? && t.restarts[id].gen == t.generation
    ensures Reaches(t, events, end) && NoStopIn(events) && end.stop.StopResolved?
    ensures end.created == t.created + {Proc(t.nextProc)} && end.process == Some(Proc(t.nextProc))
  {
    events, end := FromCleaning(RestartConnected(t, id, Broke), id);
    OneMore(t, ERestartConnected(id, Broke), events, end);
    events := [ERestartConnected(id, Broke)] + events;
  }

  /** A pending restart, unless it is only marking itself ready, creates a process after the stop. */
  lemma Revives(t: State, id: RestartId) returns (events: seq<Event>, end: State)
    requires Reopened(t) && Pending(t, id) && !t.restarts[id].phase.Marking?
    ensures Reaches(t, events, end) && NoStopIn(events) && end.stop.StopResolved?
    ensures end.created == t.created + {Proc(t.nextProc)} && end.process == Some(Proc(t.nextProc))
  {
    hide Reopened, NoStopIn, Reaches;
    match t.restarts[id].phase {
      case Publishing => events, end := FromPublishing(t, id);
      case Tearing(_) => events, end := FromTearing(t, id);
      case Connecting => events, end := FromConnecting(t, id);
      case Cleaning(_) => events, end := FromCleaning(t, id);
      case Degrading => events, end := FromDegrading(t, id);
      case Marking => assert false;
    }
  }

  /** The cleanup converges and lowers the flag, and the stop resolves. */
  lemma Resolves(s: State) returns (events: seq<Event>, t: State)
    requires s.start.StartCleaning? && !s.start.wasStopping && !Fenced(s) && CleanOk(s) && s.stop.StopTearing? && !s.timer
    ensures Reaches(s, events, t) && NoStopIn(events) && Reopened(t)
    ensures t.restarts == s.restarts && t.generation == s.generation && t.created == s.created && t.nextProc == s.nextProc
  {
    var a := StartCleaned(s, true, true, true);
    var b := StopTorn(a, true, true, true);
    t := StopSettled(b);
    OneMore(b, EStopSettled, [], t);
    events := [EStopSettled] + [];
    OneMore(a, EStopTorn(true, true, true), events, t);
    events := [EStopTorn(true, true, true)] + events;
    OneMore(s, EStartCleaned(true, true, true), events, t);
    events := [EStartCleaned(true, true, true)] + events;
  }

  /** A restart marking itself ready is refused under the stop flag, and has to clean up. */
  lemma MarkedUnderStop(s: State, id: RestartId) returns (t: State)
    requires id in s.restarts && s.restarts[id].phase.Marking? && s.stopping && CleanOk(s)
    ensures Enabled(s, ERestartMarked(id, true)) && t == Next(s, ERestartMarked(id, true))
    ensures t == s.(restarts := t.restarts) && CleanOk(t)
    ensures id in t.restarts && t.restarts[id].phase.Cleaning? && t.restarts[id].gen == s.restarts[id].gen
  {
    t := Next(s, ERestartMarked(id, true));
  }

  /** A stop that falls into the cleanup with a restart pending is overtaken in some run. */
  lemma Overtaken(before: seq<Event>, s: State, id: RestartId) returns (after: seq<Event>, end: State)
    requires Reaches(INITIAL, before, s) && s.stop.NoStop? && CleaningUp(s) && Pending(s, id)
    ensures Reaches(StopCalled(s), after, end) && NoStopIn(after) && end.stop.StopResolved?
    ensures end.created == s.created + {Proc(s.nextProc)} && end.process == Some(Proc(s.nextProc))
  {
    RunInv(INITIAL, before, s);
    RunCleanOk(INITIAL, before, s);
    var a := StopCalled(s);
    assert a.stop.StopTearing? && !a.timer && CleanOk(a) && a.restarts == s.restarts && a.generation == s.generation;
    var b, first := a, [];
    if a.restarts[id].phase.Marking? {
      b := MarkedUnderStop(a, id);
      first := [ERestartMarked(id, true)];
      assert first[1..] == [];
      assert Reaches(b, [], b);
    }
    assert Reaches(a, first, b);
    hide Inv, CleanOk, Reaches;
    var second, t := Resolves(b);
    var third;
    third, end := Revives(t, id);
    Joined(b, second, t, third, end);
    Joined(a, first, b, second + third, end);
    after := first + (second + third);
  }

  // ---- The theorem ----

  /** A stop is final, with every process reaped, exactly when it does not fall into the cleanup of a failed start with a restart pending. */
  lemma StopIsFinalExactly(before: seq<Event>, s: State)
    requires Reaches(INITIAL, before, s) && s.stop.NoStop?
    ensures IsFinal(s) <==> !Overtakable(s)
  {
    if Overtakable(s) {
      var id :| Pending(s, id);
      var after, end := Overtaken(before, s, id);
      RunInv(INITIAL, before, s);
      assert Proc(s.nextProc) !in s.created;
    } else {
      FinalWithout(before, s);
    }
  }

  /** The start that is connecting fails, with its restart still publishing. */
  lemma FailsDuring(d: State) returns (events: seq<Event>, s: State)
    requires d.start == StartConnecting(d.generation) && !d.stopping && !Fenced(d) && d.stop.NoStop?
    requires RestartId(0) in d.restarts && d.restarts[RestartId(0)] == Restart(d.generation, Publishing)
    ensures Reaches(d, events, s) && NoStopIn(events) && s.stop.NoStop? && Overtakable(s)
  {
    var e := StartConnected(d, Broke);
    s := StartDegraded(e, true);
    assert Pending(s, RestartId(0));
    OneMore(e, EStartDegraded(true), [], s);
    events := [EStartDegraded(true)] + [];
    OneMore(d, EStartConnected(Broke), events, s);
    events := [EStartConnected(Broke)] + events;
  }

  /** Such a state is reached: the child exits during a start, and the start fails while the restart is publishing. */
  lemma OvertakableIsReached() returns (before: seq<Event>, s: State)
    ensures Reaches(INITIAL, before, s) && s.stop.NoStop? && Overtakable(s)
  {
    var a := StartCalled(INITIAL);
    var b := StartPublished(a, true);
    var c := Disconnected(b);
    var d := TimerFired(c);
    before, s := FailsDuring(d);
    hide Reaches;
    OneMore(c, ETimer, before, s);
    before := [ETimer] + before;
    OneMore(b, EChildExit, before, s);
    before := [EChildExit] + before;
    OneMore(a, EStartPublished(true), before, s);
    before := [EStartPublished(true)] + before;
    OneMore(INITIAL, EStart, before, s);
    before := [EStart] + before;
  }
}
