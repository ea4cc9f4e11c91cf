/** What a submission to a Claude Code runtime is handed: the session of the creation it waits for. */
module ClaudeSubmissions {
  import opened Wrappers
  import opened ClaudeLifecycle
  import opened ClaudeLifecycleSafety

  /** Creation `id` is on its way to a session. */
  predicate UnderWay(s: State, id: CreationId) {
    (s.creation.StoppingPrevious? || s.creation.Spawning? || s.creation.Publishing?) && s.creation.id == id
  }

  /** The event is not a failed stop, spawn or write of creation `id`. */
  predicate Smooth(s: State, e: Event, id: CreationId) {
    UnderWay(s, id) ==> e != EPreviousStopped(false) && e != ESpawned(false) && e != EPublished(false)
  }

  ghost predicate ReachesSmoothly(s: State, events: seq<Event>, end: State, id: CreationId)
    decreases |events|
  {
    if events == [] then s == end
    else Enabled(s, events[0]) && Smooth(s, events[0], id) && ReachesSmoothly(Next(s, events[0]), events[1..], end, id)
  }

  lemma {:induction false} SmoothIsRun(s: State, events: seq<Event>, end: State, id: CreationId)
    requires ReachesSmoothly(s, events, end, id)
    ensures Reaches(s, events, end)
    decreases |events|
  {
    if events != [] {
      SmoothIsRun(Next(s, events[0]), events[1..], end, id);
    }
  }

  // ---- Creations are numbered, and belong to the generation they began in ----

  predicate InGeneration(s: State) {
    !s.stopped && (s.creation.StoppingPrevious? || s.creation.Spawning? || s.creation.Publishing?) ==>
      s.creation.gen == s.generation
  }

  ghost predicate Numbered(s: State) {
    && InGeneration(s)
    && (!s.creation.Idle? ==> s.creation.id !in s.settled && s.creation.id.n < s.nextCreation)
    && (forall id | id in s.settled :: id.n < s.nextCreation)
  }

  /** The events of a creation, and those that may begin one or touch a submission. */
  predicate OfCreation(e: Event) {
    e.EPreviousStopped? || e.ESpawned? || e.EPublished? || e.EFailStopped?
  }

  predicate OfSubmission(e: Event) {
    e.ESubmit? || e.ESubmitEnsured? || e.ESubmitAnswered? || e.EMaterialized?
  }

  /** Only a stop, and for good, changes the generation. */
  predicate SameGeneration(s: State, t: State) {
    !t.stopped ==> !s.stopped && t.generation == s.generation
  }

  /** Neither creations, sessions nor submissions differ. */
  predicate Beside(s: State, t: State) {
    && t.creation == s.creation && t.settled == s.settled && t.launches == s.launches && t.submits == s.submits
    && t.nextCreation == s.nextCreation && SameGeneration(s, t)
  }

  lemma BesideTransitive(s: State, t: State, u: State)
    requires Beside(s, t) && Beside(t, u)
    ensures Beside(s, u)
  {
  }

  lemma StretchesBeside(s: State, ok: bool, p: Sess, fatal: bool)
    ensures Beside(s, Wrote(s, ok)) && Beside(s, WriteFailed(s)) && Beside(s, StopEnded(s, p, ok)) && Beside(s, Drain(s, fatal))
  {
  }

  lemma ReportBeside(s: State, e: Event)
    requires Enabled(s, e) && (e.EStartPublished? || e.EStartReported? || e.EStopMarked? || e.EWriteFailed?)
    ensures Beside(s, Next(s, e))
  {
    hide Wrote, WriteFailed;
    StretchesBeside(s, false, Sess(0), false);
    StretchesBeside(s, true, Sess(0), false);
  }

  lemma CallBeside(s: State, e: Event)
    requires Enabled(s, e) && (e.EStart? || e.EStartEnsured? || e.EReleased? || e.EExit? || e.ESubmitReleased? || e.EStop?)
    ensures Beside(s, Next(s, e))
  {
    hide Waited;
  }

  lemma ProvedBeside(s: State, p: Sess, fatal: bool)
    ensures Beside(s, Drain(StopEnded(s, p, true), fatal))
  {
    hide Beside, Drain, StopEnded;
    StretchesBeside(s, true, p, fatal);
    StretchesBeside(StopEnded(s, p, true), true, p, fatal);
    BesideTransitive(s, StopEnded(s, p, true), Drain(StopEnded(s, p, true), fatal));
  }

  lemma StopEndBeside(s: State, e: Event)
    requires Enabled(s, e) && (e.EExitStopped? || e.EStopProved? || e.EDrained? || e.EFatalJoined? || e.EFatalRetried? || e.EFenceTorn?)
    ensures Beside(s, Next(s, e))
  {
    hide Drain, StopEnded;
    match e {
      case EExitStopped(p, ok) => StretchesBeside(s, ok, p, false);
      case EStopProved(_) => ProvedBeside(s, s.stop.session, false);
      case EDrained => StretchesBeside(s, true, Sess(0), s.stop.fatal);
      case EFatalJoined => StretchesBeside(s, true, Sess(0), true);
      case EFatalRetried(_) => ProvedBeside(s, s.stop.session, true);
      case EFenceTorn(_) => StretchesBeside(s, true, s.fence.session, true);
    }
  }

  lemma SettledBeside(s: State, ok: bool)
    requires s.stop.StopSettling?
    ensures Beside(s, StopSettled(s, ok))
  {
    hide Drain, Wrote;
    var w := Wrote(s, ok);
    StretchesBeside(s, ok, Sess(0), false);
    StretchesBeside(w, ok, Sess(0), false);
    BesideTransitive(s, w, Drain(w, false));
  }

  lemma OthersBeside(s: State, e: Event)
    requires Enabled(s, e) && !OfCreation(e) && !OfSubmission(e)
    ensures Beside(s, Next(s, e))
  {
    hide Beside, Next, Enabled;
    match e {
      case EStartPublished(_) => ReportBeside(s, e);
      case EStartReported(_) => ReportBeside(s, e);
      case EStopMarked(_) => ReportBeside(s, e);
      case EWriteFailed => ReportBeside(s, e);
      case EStopSettled(ok) => SettledNext(s, ok);
      case EExitStopped(_, _) => StopEndBeside(s, e);
      case EStopProved(_) => StopEndBeside(s, e);
      case EDrained => StopEndBeside(s, e);
      case EFatalJoined => StopEndBeside(s, e);
      case EFatalRetried(_) => StopEndBeside(s, e);
      case EFenceTorn(_) => StopEndBeside(s, e);
      case _ => CallBeside(s, e);
    }
  }

  lemma SettledNext(s: State, ok: bool)
    requires Enabled(s, EStopSettled(ok))
    ensures Beside(s, Next(s, EStopSettled(ok)))
  {
    SettledBeside(s, ok);
    hide Beside, StopSettled;
  }

  lemma PublishedNumbered(s: State, ok: bool)
    requires Numbered(s) && s.creation.Publishing? && s.creation.session in s.launches
    ensures Numbered(Published(s, ok)) && SameGeneration(s, Published(s, ok))
  {
  }

  lemma CreationNumbered(s: State, e: Event)
    requires Numbered(s) && Enabled(s, e) && OfCreation(e)
    ensures Numbered(Next(s, e)) && SameGeneration(s, Next(s, e))
  {
    hide Published;
    if e.EPublished? {
      PublishedNumbered(s, e.ok);
    }
  }

  lemma EnsureNumbered(s: State, alive: bool)
    requires Inv(s) && Numbered(s)
    ensures Numbered(Ensure(s, alive)) && SameGeneration(s, Ensure(s, alive))
  {
  }

  lemma SubmissionNumbered(s: State, e: Event)
    requires Inv(s) && Numbered(s) && Enabled(s, e) && OfSubmission(e)
    ensures Numbered(Next(s, e)) && SameGeneration(s, Next(s, e))
  {
    hide Ensure, Inv, EnsureWait, Waited;
    match e {
      case EMaterialized(_, alive) => EnsureNumbered(s, alive);
      case ESubmit(alive) => EnsureNumbered(s, alive);
      case _ =>
    }
  }

  lemma NextNumbered(s: State, e: Event)
    requires Inv(s) && Numbered(s) && Enabled(s, e)
    ensures Numbered(Next(s, e)) && SameGeneration(s, Next(s, e))
  {
    hide Next, Enabled, Inv;
    if OfCreation(e) {
      CreationNumbered(s, e);
    } else if OfSubmission(e) {
      SubmissionNumbered(s, e);
    } else {
      OthersBeside(s, e);
    }
  }

  // ---- The promise ----

  /** The session a submission may expect: the one under construction, or else one not yet built. */
  predicate Expected(before: State, p: Sess) {
    if before.creation.StoppingPrevious? then p !in before.launches
    else (before.creation.Spawning? || before.creation.Publishing?) && p == before.creation.session
  }

  /** Submission `id` still waits for its creation, or is handed the session that creation built. */
  ghost predicate Handed(before: State, s: State, creation: CreationId, id: SubmitId) {
    && id in s.submits
    && if creation in s.settled then
         && s.settled[creation].Some?
         && var p := s.settled[creation].value;
            && Expected(before, p) && p in s.launches
            && (|| s.submits[id] == Ensuring(Joined(creation))
                || s.submits[id] == Submitting(p)
                || (s.submits[id].Decided? && s.submits[id].answer.AnsweredBySession?))
       else UnderWay(s, creation) && s.submits[id] == Ensuring(Joined(creation))
  }

  ghost predicate Promised(before: State, s: State, creation: CreationId, id: SubmitId) {
    && Handed(before, s, creation, id)
    && before.launches.Keys <= s.launches.Keys
    && (UnderWay(s, creation) ==>
          if s.creation.StoppingPrevious? then before.creation.StoppingPrevious?
          else Expected(before, s.creation.session) && s.creation.session in s.launches)
  }

  lemma PreviousStoppedPromised(before: State, s: State, creation: CreationId, id: SubmitId)
    requires Inv(s) && Numbered(s) && Promised(before, s, creation, id) && s.creation.StoppingPrevious?
    requires !s.stopped
    ensures Promised(before, PreviousStopped(s, true), creation, id)
    ensures !UnderWay(s, creation) ==> Promised(before, PreviousStopped(s, false), creation, id)
  {
    assert !Fenced(s) && Sess(s.nextSession) !in s.launches;
    hide Inv;
  }

  lemma SpawnedPromised(before: State, s: State, ok: bool, creation: CreationId, id: SubmitId)
    requires Numbered(s) && Promised(before, s, creation, id) && s.creation.Spawning?
    requires !s.stopped && !Fenced(s) && (UnderWay(s, creation) ==> ok)
    ensures Promised(before, Spawned(s, ok), creation, id)
  {
  }

  lemma PublishedPromised(before: State, s: State, ok: bool, creation: CreationId, id: SubmitId)
    requires Numbered(s) && Promised(before, s, creation, id) && s.creation.Publishing? && s.creation.session in s.launches
    requires !s.stopped && !Fenced(s) && (UnderWay(s, creation) ==> ok)
    ensures Promised(before, Published(s, ok), creation, id)
  {
  }

  lemma FailStoppedPromised(before: State, s: State, ok: bool, creation: CreationId, id: SubmitId)
    requires Numbered(s) && Promised(before, s, creation, id) && s.creation.FailStopping?
    ensures Promised(before, FailStopped(s, ok), creation, id)
  {
  }

  lemma CreationPromised(before: State, s: State, e: Event, creation: CreationId, id: SubmitId)
    requires Inv(s) && Numbered(s) && Promised(before, s, creation, id)
    requires Enabled(s, e) && Smooth(s, e, creation) && OfCreation(e) && !s.stopped
    ensures Promised(before, Next(s, e), creation, id)
  {
    assert !Fenced(s);
    hide Inv, Numbered, Promised, PreviousStopped, Spawned, Published, FailStopped;
    match e {
      case EPreviousStopped(_) => PreviousStoppedPromised(before, s, creation, id);
      case ESpawned(ok) => SpawnedPromised(before, s, ok, creation, id);
      case EPublished(ok) => PublishedPromised(before, s, ok, creation, id);
      case EFailStopped(ok) => FailStoppedPromised(before, s, ok, creation, id);
    }
  }

  lemma EnsurePromised(before: State, s: State, alive: bool, creation: CreationId, id: SubmitId)
    requires Inv(s) && Numbered(s) && Promised(before, s, creation, id)
    ensures Promised(before, Ensure(s, alive), creation, id)
  {
    assert !s.creation.Idle? ==> s.starting.Some?;
    assert UnderWay(s, creation) ==> Ensure(s, alive) == s;
    hide Inv;
  }

  /** Whatever keeps creation, sessions and this submission keeps the promise. */
  lemma Unaffected(before: State, s: State, t: State, creation: CreationId, id: SubmitId)
    requires Promised(before, s, creation, id)
    requires t.creation == s.creation && t.settled == s.settled && t.launches == s.launches
    requires id in t.submits && t.submits[id] == s.submits[id]
    ensures Promised(before, t, creation, id)
  {
  }

  lemma SubmitPromised(before: State, s: State, alive: bool, creation: CreationId, id: SubmitId)
    requires Inv(s) && Numbered(s) && Promised(before, s, creation, id)
    ensures Promised(before, SubmitCalled(s, alive), creation, id)
  {
    assert SubmitId(s.nextSubmit) !in s.submits && id in s.submits;
    EnsurePromised(before, s, alive, creation, id);
    EnsureInv(s, alive);
    hide Ensure, Inv, Promised, EnsureWait;
    Unaffected(before, Ensure(s, alive), SubmitCalled(s, alive), creation, id);
  }

  lemma Submitted(before: State, s: State, creation: CreationId, id: SubmitId)
    requires Promised(before, s, creation, id)
    ensures id in s.submits
  {
  }

  lemma MaterializedPromised(before: State, s: State, ok: bool, alive: bool, creation: CreationId, id: SubmitId)
    requires Inv(s) && Numbered(s) && Promised(before, s, creation, id) && s.start.Materializing?
    ensures Promised(before, Materialized(s, ok, alive), creation, id)
  {
    hide Ensure, Inv, Promised, EnsureWait, Current, Keeps;
    Submitted(before, s, creation, id);
    EnsurePromised(before, s, alive, creation, id);
    EnsureInv(s, alive);
    if ok && Current(s, s.start.gen) {
      Unaffected(before, Ensure(s, alive), Materialized(s, ok, alive), creation, id);
    } else {
      Unaffected(before, s, Materialized(s, ok, alive), creation, id);
    }
  }

  lemma AnswerPromised(before: State, s: State, e: Event, creation: CreationId, id: SubmitId)
    requires Promised(before, s, creation, id) && Enabled(s, e) && !s.stopped
    requires e.ESubmitEnsured? || e.ESubmitAnswered?
    ensures Promised(before, Next(s, e), creation, id)
  {
  }

  lemma SubmissionPromised(before: State, s: State, e: Event, creation: CreationId, id: SubmitId)
    requires Inv(s) && Numbered(s) && Promised(before, s, creation, id) && Enabled(s, e) && !s.stopped && OfSubmission(e)
    ensures Promised(before, Next(s, e), creation, id)
  {
    hide Inv, Numbered, Promised, SubmitCalled, Materialized, SubmitEnsured, SubmitAnswered;
    match e {
      case ESubmit(alive) => SubmitPromised(before, s, alive, creation, id);
      case EMaterialized(ok, alive) => MaterializedPromised(before, s, ok, alive, creation, id);
      case _ => AnswerPromised(before, s, e, creation, id);
    }
  }

  lemma OtherPromised(before: State, s: State, t: State, creation: CreationId, id: SubmitId)
    requires Promised(before, s, creation, id) && Beside(s, t)
    ensures Promised(before, t, creation, id)
  {
  }

  lemma NextPromised(before: State, s: State, e: Event, creation: CreationId, id: SubmitId)
    requires Inv(s) && Numbered(s) && Promised(before, s, creation, id)
    requires Enabled(s, e) && Smooth(s, e, creation) && !Next(s, e).stopped
    ensures Promised(before, Next(s, e), creation, id)
  {
    hide Inv, Numbered, Promised, Next, Enabled, Smooth, Beside;
    NextNumbered(s, e);
    if OfCreation(e) {
      CreationPromised(before, s, e, creation, id);
    } else if OfSubmission(e) {
      SubmissionPromised(before, s, e, creation, id);
    } else {
      OthersBeside(s, e);
      OtherPromised(before, s, Next(s, e), creation, id);
    }
  }

  lemma {:induction false} RunNumbered(s: State, events: seq<Event>, end: State)
    requires Inv(s) && Numbered(s) && Reaches(s, events, end)
    ensures Numbered(end)
    decreases |events|
  {
    if events != [] {
      hide Inv, Keeps, Numbered, Next;
      NextInv(s, events[0]);
      NextNumbered(s, events[0]);
      RunNumbered(Next(s, events[0]), events[1..], end);
    }
  }

  lemma StoppedStays(s: State, events: seq<Event>, end: State)
    requires Inv(s) && Reaches(s, events, end) && !end.stopped
    ensures !s.stopped
  {
    RunInv(s, events, end);
  }

  lemma {:induction false} RunPromised(before: State, s: State, events: seq<Event>, end: State, creation: CreationId, id: SubmitId)
    requires Inv(s) && Numbered(s) && Promised(before, s, creation, id)
    requires ReachesSmoothly(s, events, end, creation) && !end.stopped
    ensures Promised(before, end, creation, id)
    decreases |events|
  {
    if events != [] {
      hide Inv, Keeps, Numbered, Next, Promised, Smooth, Enabled;
      var t := Next(s, events[0]);
      NextInv(s, events[0]);
      NextNumbered(s, events[0]);
      SmoothIsRun(t, events[1..], end, creation);
      StoppedStays(t, events[1..], end);
      NextPromised(before, s, events[0], creation, id);
      RunPromised(before, t, events[1..], end, creation, id);
    }
  }

  // ---- A submission that finds a live session ----

  /** Submission `id` is about to ask session `p`, asks it, or was answered by it. */
  predicate Given(s: State, id: SubmitId, p: Sess) {
    && id in s.submits
    && (s.submits[id] == Ensuring(Have(p)) || s.submits[id] == Submitting(p)
        || (s.submits[id].Decided? && s.submits[id].answer.AnsweredBySession?))
  }

  lemma GivenAnswer(s: State, e: Event, id: SubmitId, p: Sess)
    requires Given(s, id, p) && Enabled(s, e) && !s.stopped && (e.ESubmitEnsured? || e.ESubmitAnswered?)
    ensures Given(Next(s, e), id, p)
  {
  }

  lemma GivenCreation(s: State, e: Event, id: SubmitId, p: Sess)
    requires Given(s, id, p) && Enabled(s, e) && OfCreation(e)
    ensures Given(Next(s, e), id, p)
  {
  }

  lemma GivenCall(s: State, e: Event, id: SubmitId, p: Sess)
    requires Inv(s) && Given(s, id, p) && Enabled(s, e) && (e.ESubmit? || e.EMaterialized?)
    ensures Given(Next(s, e), id, p)
  {
    assert SubmitId(s.nextSubmit) !in s.submits;
    hide Inv, Keeps, Ensure, EnsureWait;
    EnsureInv(s, e.alive);
  }

  lemma {:induction false} RunGiven(s: State, events: seq<Event>, end: State, id: SubmitId, p: Sess)
    requires Inv(s) && Given(s, id, p) && Reaches(s, events, end) && !end.stopped
    ensures Given(end, id, p)
    decreases |events|
  {
    if events != [] {
      hide Inv, Keeps, Next, Enabled, Given;
      var e, t := events[0], Next(s, events[0]);
      NextInv(s, e);
      StoppedStays(s, events, end);
      if e.ESubmitEnsured? || e.ESubmitAnswered? {
        GivenAnswer(s, e, id, p);
      } else if e.ESubmit? || e.EMaterialized? {
        GivenCall(s, e, id, p);
      } else if OfCreation(e) {
        GivenCreation(s, e, id, p);
      } else {
        OthersBeside(s, e);
        GivenBeside(s, t, id, p);
      }
      RunGiven(t, events[1..], end, id, p);
    }
  }

  lemma GivenBeside(s: State, t: State, id: SubmitId, p: Sess)
    requires Given(s, id, p) && Beside(s, t)
    ensures Given(t, id, p)
  {
  }

  // ---- The theorems ----

  /** A submission that finds a live session and no creation under way is decided by that session, unless the runtime is stopped. */
  lemma LiveSessionDecides(prior: Option<Thread>, events: seq<Event>, s: State, p: Sess, after: seq<Event>, end: State)
    requires Reaches(Initial(prior), events, s)
    requires !s.stopped && s.starting.None? && s.session == Some(p)
    requires Reaches(SubmitCalled(s, true), after, end) && !end.stopped
    ensures Given(end, SubmitId(s.nextSubmit), p)
  {
    ReachesNumbered(prior, events, s);
    NextInv(s, ESubmit(true));
    assert Next(s, ESubmit(true)) == SubmitCalled(s, true);
    assert Given(SubmitCalled(s, true), SubmitId(s.nextSubmit), p);
    hide Inv, Keeps, SubmitCalled;
    RunGiven(SubmitCalled(s, true), after, end, SubmitId(s.nextSubmit), p);
  }

  lemma ReachesNumbered(prior: Option<Thread>, events: seq<Event>, s: State)
    requires Reaches(Initial(prior), events, s)
    ensures Inv(s) && Numbered(s)
  {
    InitialInv(prior);
    RunInv(Initial(prior), events, s);
    RunNumbered(Initial(prior), events, s);
  }

  /**
   * A submission that waits for a creation on its way is handed the session of that very creation,
   * unless a stop, spawn or write of the creation fails or the runtime is stopped.
   */
  lemma WaitingIsHanded(prior: Option<Thread>, events: seq<Event>, s: State, id: SubmitId, creation: CreationId,
                        after: seq<Event>, end: State)
    requires Reaches(Initial(prior), events, s)
    requires id in s.submits && s.submits[id] == Ensuring(Joined(creation)) && UnderWay(s, creation)
    requires ReachesSmoothly(s, after, end, creation) && !end.stopped
    ensures Handed(s, end, creation, id)
  {
    ReachesNumbered(prior, events, s);
    RunPromised(s, s, after, end, creation, id);
  }

  lemma SubmitNumbered(s: State, alive: bool)
    requires Inv(s) && Numbered(s)
    ensures Inv(SubmitCalled(s, alive)) && Numbered(SubmitCalled(s, alive))
  {
    hide Inv, Numbered, Keeps, SubmitCalled;
    assert Enabled(s, ESubmit(alive)) && Next(s, ESubmit(alive)) == SubmitCalled(s, alive);
    NextInv(s, ESubmit(alive));
    NextNumbered(s, ESubmit(alive));
  }

  lemma BeginsUnderWay(s: State, alive: bool)
    requires Inv(s) && !s.stopped && s.starting.None? && !(s.session.Some? && alive)
    ensures var t, id, creation := SubmitCalled(s, alive), SubmitId(s.nextSubmit), CreationId(s.nextCreation);
            && t.submits == s.submits[id := Ensuring(Joined(creation))] && t.creation.id == creation && !t.stopped
            && t.generation == s.generation && t.starting == Some(creation)
            && if s.session.Some? then t.creation == StoppingPrevious(creation, s.generation, s.session.value) && t.launches == s.launches
               else
                 && t.creation.Spawning? && t.creation.gen == s.generation && t.creation.session in t.launches
                 && t.creation.session !in s.launches && t.session == Some(t.creation.session)
  {
    assert !Fenced(s) && Sess(s.nextSession) !in s.launches;
    hide Inv;
  }

  /**
   * A submission to a runtime with no live session and no creation under way begins a creation; if
   * that meets no failure and no stop, the submission is handed the new session it builds.
   */
  lemma SubmissionIsHanded(prior: Option<Thread>, events: seq<Event>, s: State, alive: bool, after: seq<Event>, end: State)
    requires Reaches(Initial(prior), events, s)
    requires !s.stopped && s.starting.None? && !(s.session.Some? && alive)
    requires ReachesSmoothly(SubmitCalled(s, alive), after, end, CreationId(s.nextCreation)) && !end.stopped
    ensures var id, creation := SubmitId(s.nextSubmit), CreationId(s.nextCreation);
            && id in end.submits
            && if creation in end.settled then
                 && end.settled[creation].Some?
                 && var p := end.settled[creation].value;
                    && p in end.launches && p !in s.launches
                    && (end.submits[id] == Ensuring(Joined(creation)) || end.submits[id] == Submitting(p)
                        || (end.submits[id].Decided? && end.submits[id].answer.AnsweredBySession?))
               else UnderWay(end, creation) && end.submits[id] == Ensuring(Joined(creation))
  {
    hide Inv, Keeps, SubmitCalled, Reaches, ReachesSmoothly, InGeneration;
    ReachesNumbered(prior, events, s);
    var t := SubmitCalled(s, alive);
    BeginsUnderWay(s, alive);
    SubmitNumbered(s, alive);
    RunPromised(t, t, after, end, CreationId(s.nextCreation), SubmitId(s.nextSubmit));
  }

  /** And such a run exists: the session is built, spawned and published, and handed over. */
  lemma SubmissionCanBeHanded(prior: Option<Thread>, events: seq<Event>, s: State, alive: bool)
    returns (after: seq<Event>, end: State, p: Sess)
    requires Reaches(Initial(prior), events, s)
    requires !s.stopped && s.starting.None? && !(s.session.Some? && alive)
    ensures ReachesSmoothly(SubmitCalled(s, alive), after, end, CreationId(s.nextCreation)) && !end.stopped
    ensures SubmitId(s.nextSubmit) in end.submits && end.submits[SubmitId(s.nextSubmit)] == Submitting(p)
    ensures p !in s.launches && p in end.launches && end.session == Some(p) && end.threadId == Some(end.launches[p].thread)
  {
    ReachesNumbered(prior, events, s);
    BeginsUnderWay(s, alive);
    NextInv(s, ESubmit(alive));
    var id, creation := SubmitId(s.nextSubmit), CreationId(s.nextCreation);
    var t := SubmitCalled(s, alive);
    assert Next(s, ESubmit(alive)) == t;
    if t.creation.StoppingPrevious? {
      var built := Next(t, EPreviousStopped(true));
      PreviousBuilds(t, s.launches);
      after, end, p := BuiltIsHanded(built, id, creation);
      assert ReachesSmoothly(t, [EPreviousStopped(true)] + after, end, creation) by {
        assert ([EPreviousStopped(true)] + after)[1..] == after;
      }
      after := [EPreviousStopped(true)] + after;
    } else {
      after, end, p := BuiltIsHanded(t, id, creation);
    }
  }

  lemma PreviousBuilds(t: State, launches: map<Sess, Launch>)
    requires Inv(t) && t.creation.StoppingPrevious? && !t.stopped && t.creation.gen == t.generation && t.launches == launches
    ensures var built := PreviousStopped(t, true);
            && built.creation.Spawning? && built.creation.id == t.creation.id && built.creation.gen == built.generation
            && built.creation.session in built.launches && built.creation.session !in launches
            && built.session == Some(built.creation.session)
            && !built.stopped && !Fenced(built) && built.submits == t.submits && built.settled == t.settled
  {
    assert !Fenced(t) && Sess(t.nextSession) !in t.launches;
    hide Inv;
  }

  /** Once built, a session needs its spawn and its write to succeed, and the submission to resume. */
  lemma BuiltIsHanded(s: State, id: SubmitId, creation: CreationId) returns (after: seq<Event>, end: State, p: Sess)
    requires s.creation.Spawning? && s.creation.id == creation && s.creation.gen == s.generation && s.creation.session in s.launches
    requires s.session == Some(s.creation.session) && !s.stopped && !Fenced(s)
    requires id in s.submits && s.submits[id] == Ensuring(Joined(creation))
    ensures ReachesSmoothly(s, after, end, creation) && !end.stopped
    ensures p == s.creation.session && id in end.submits && end.submits[id] == Submitting(p)
    ensures end.launches == s.launches && end.session == Some(p) && end.threadId == Some(s.launches[p].thread)
  {
    p := s.creation.session;
    var a := Next(s, ESpawned(true));
    var b := Next(a, EPublished(true));
    end := Next(b, ESubmitEnsured(id));
    after := [ESpawned(true), EPublished(true), ESubmitEnsured(id)];
    assert after[1..] == [EPublished(true), ESubmitEnsured(id)];
    assert after[1..][1..] == [ESubmitEnsured(id)] && after[1..][1..][1..] == [];
    assert ReachesSmoothly(end, [], end, creation);
    assert ReachesSmoothly(b, after[1..][1..], end, creation);
    assert ReachesSmoothly(a, after[1..], end, creation);
  }
}
