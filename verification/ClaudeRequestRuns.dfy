/** What a Claude Code session promises about its requests, over all runs. */
module ClaudeRequestRuns {
  import opened Wrappers
  import opened Sequences
  import opened ClaudeTurns
  import opened ClaudeRequests

  lemma InitialInv(options: Options)
    ensures Inv(Initial(options))
  {
  }

  lemma ReachesInv(options: Options, events: seq<Event>, s: State)
    requires Reaches(Initial(options), events, s)
    ensures Inv(s)
  {
    InitialInv(options);
    RunInv(Initial(options), events, s);
  }

  /**
   * In every run a request has its admission resolved at most once and before its settlement, and
   * it is settled exactly when a result, a failure or a close has taken it out of the association.
   */
  lemma EachRequestOnce(options: Options, events: seq<Event>, s: State, c: Cmd)
    requires Reaches(Initial(options), events, s) && c in s.calls
    ensures c in s.requests + Removed(s) ==> s.calls[c] == [] || s.calls[c] == [Admit(Submitted)]
    ensures c !in s.requests + Removed(s) ==> Closed(s.calls[c])
  {
    ReachesInv(options, events, s);
    assert CallsOk(s, c);
  }

  /** Between steps the idle timer is armed exactly when a request is outstanding; after close none is. */
  lemma TimerWatchesWork(options: Options, events: seq<Event>, s: State)
    requires Reaches(Initial(options), events, s)
    ensures s.timer <==> s.requests != {}
    ensures s.closed ==> s.requests == {} && !s.timer
  {
    ReachesInv(options, events, s);
  }

  // ---- Nothing said is taken back ----

  ghost predicate Grows(before: State, after: State) {
    forall c | c in before.calls :: c in after.calls && before.calls[c] <= after.calls[c]
  }

  lemma NextGrows(s: State, e: Event)
    requires Enabled(s, e)
    ensures Grows(s, Next(s, e))
  {
    hide StateName, CompletionFrom, Accept, Discard, Called;
    match e {
      case ESubmit(_, _) =>
      case EWritten(c, failure) => WrittenGrows(s.(writes := s.writes - {c}), c, failure);
      case EAnswered =>
        var a := s.answering.value;
        CallsGrow(s, a.requests, Submitted, a.settlement);
      case EFail(error) => CloseGrows(s, SettledFailed(error));
      case EStop => CloseGrows(s, SettledStopped);
      case ETimer => CloseGrows(s, SettledFailed(STALLED));
      case ELine(line) =>
        if line.LifecycleLine? && line.command.Some? && line.state.Some? {
          LifecycleGrows(ArmIdleTimer(s), line.command.value, line.state.value);
        }
    }
  }

  lemma CallsGrow(s: State, who: set<Cmd>, admission: Admission, settlement: Settlement)
    ensures Grows(s, AdmitAll(s, who, admission))
    ensures Grows(s, SettleAll(AdmitAll(s, who, admission), who, settlement))
    ensures Grows(s, SettleAll(Remove(AdmitAll(s, who, admission), who), who, settlement))
    ensures Grows(s, SettleAll(AdmitAll(Remove(s, who), who, admission), who, settlement))
  {
  }

  lemma CloseGrows(s: State, settlement: Settlement)
    ensures Grows(s, Close(s, settlement))
  {
    CallsGrow(s, s.requests, Ambiguous(if settlement.SettledFailed? then settlement.error else STOPPED_BEFORE_ACK), settlement);
    hide AdmitAll, SettleAll;
  }

  lemma WrittenGrows(s: State, c: Cmd, failure: Option<string>)
    ensures Grows(s, AdmitAll(s, {c}, Submitted))
    ensures failure.Some? ==> Grows(s, WriteFailed(s, c, failure.value))
  {
    CallsGrow(s, {c}, Submitted, SettledStopped);
    if failure.Some? {
      CallsGrow(s.(consumed := s.consumed - {c}), {c}, Ambiguous(failure.value), SettledFailed(failure.value));
    }
    hide Called;
  }

  lemma LifecycleGrows(s: State, c: Cmd, state: CommandState)
    ensures Grows(s, Lifecycle(s, c, state))
  {
    hide Called, StateName, Discard;
    var noted := if state == Started then s.(consumed := s.consumed + {c}, started := s.started + {c}) else s;
    CallsGrow(noted, {c}, Submitted, SettledFailed("claude command was " + StateName(state)));
  }

  lemma {:induction false} RunGrows(s: State, events: seq<Event>, end: State, c: Cmd)
    requires Reaches(s, events, end) && c in s.calls
    ensures c in end.calls && s.calls[c] <= end.calls[c]
    decreases |events|
  {
    if events != [] {
      NextGrows(s, events[0]);
      RunGrows(Next(s, events[0]), events[1..], end, c);
    }
  }

  /** A settled request keeps its one admission and its one settlement for ever. */
  lemma SettlementStands(options: Options, before: seq<Event>, s: State, after: seq<Event>, end: State, c: Cmd)
    requires Reaches(Initial(options), before, s) && Reaches(s, after, end)
    requires c in s.calls && c !in s.requests + Removed(s)
    ensures c in end.calls && end.calls[c] == s.calls[c] && c !in end.requests + Removed(end)
  {
    ReachesInv(options, before, s);
    assert CallsOk(s, c);
    RunInv(s, after, end);
    RunGrows(s, after, end, c);
    assert CallsOk(end, c);
  }

  // ---- Results ----

  /** The commands these events report started. */
  function StartedIn(events: seq<Event>): set<Cmd> {
    if events == [] then {}
    else
      var rest := StartedIn(events[1..]);
      if events[0].ELine? && events[0].line.LifecycleLine? && events[0].line.state == Some(Started) && events[0].line.command.Some?
      then {events[0].line.command.value} + rest
      else rest
  }

  lemma NextStarted(s: State, e: Event)
    requires Enabled(s, e)
    ensures Next(s, e).started == s.started + StartedIn([e])
  {
    hide StateName, CompletionFrom, Accept;
    assert [e][1..] == [];
  }

  lemma {:induction false} RunStarted(s: State, events: seq<Event>, end: State)
    requires Reaches(s, events, end)
    ensures end.started == s.started + StartedIn(events)
    decreases |events|
  {
    if events != [] {
      NextStarted(s, events[0]);
      RunStarted(Next(s, events[0]), events[1..], end);
      assert StartedIn([events[0]]) + StartedIn(events[1..]) == StartedIn(events) by {
        assert [events[0]][1..] == [];
      }
    }
  }

  // ---- What the turn has heard ----

  /** What one event tells the aggregator: a line, or, when a started command is cancelled or the session closes, to start over. */
  function StepsOf(s: State, e: Event): seq<ClaudeTurns.Step> {
    match e
    case ELine(line) =>
      if line.LifecycleLine? then
        if line.command.Some? && line.state == Some(Cancelled) && line.command.value in s.consumed then [Drop] else []
      else [Feed(line)]
    case EFail(_) => [Drop]
    case EStop => [Drop]
    case ETimer => [Drop]
    case _ => []
  }

  /** The same of a whole run. */
  function AllSteps(s: State, events: seq<Event>): seq<ClaudeTurns.Step>
    decreases |events|
  {
    if events == [] || !Enabled(s, events[0]) then []
    else StepsOf(s, events[0]) + AllSteps(Next(s, events[0]), events[1..])
  }

  lemma NextTurn(s: State, e: Event, heard: seq<ClaudeTurns.Step>)
    requires Enabled(s, e) && s.turn == After(heard)
    ensures Next(s, e).turn == After(heard + StepsOf(s, e)) && Next(s, e).options == s.options
  {
    if StepsOf(s, e) != [] {
      assert |StepsOf(s, e)| == 1;
      assert (heard + StepsOf(s, e))[..|heard|] == heard;
    } else {
      assert heard + StepsOf(s, e) == heard;
    }
    hide After, StateName, CompletionFrom, OutcomeOf, Called;
  }

  lemma {:induction false} RunTurn(s: State, events: seq<Event>, end: State, heard: seq<ClaudeTurns.Step>)
    requires Reaches(s, events, end) && s.turn == After(heard)
    ensures end.turn == After(heard + AllSteps(s, events)) && end.options == s.options
    decreases |events|
  {
    hide After, StepsOf, Next;
    if events == [] {
      assert heard + AllSteps(s, events) == heard;
    } else {
      NextTurn(s, events[0], heard);
      RunTurn(Next(s, events[0]), events[1..], end, heard + StepsOf(s, events[0]));
      Regroup(heard, StepsOf(s, events[0]), AllSteps(Next(s, events[0]), events[1..]));
    }
  }

  /** In every run a result completes with what it and the steps heard so far report. */
  lemma RunReports(options: Options, events: seq<Event>, s: State, e: Envelope)
    requires Reaches(Initial(options), events, s)
    ensures Reports(AllSteps(Initial(options), events), e, options.session, options.structured, ResultCompletion(s, e))
  {
    hide Reports, CompletionFrom, OutcomeOf, After, AllSteps, Reaches;
    InitialTurn(options);
    RunTurn(Initial(options), events, s, []);
    var heard := AllSteps(Initial(options), events);
    assert [] + heard == heard;
    ResultReports(heard, e, options.session, options.structured);
  }

  lemma InitialTurn(options: Options)
    ensures Initial(options).turn == After([])
  {
  }

  lemma WindowStep(s: State, e: Event)
    requires s.answering.Some? && Enabled(s, e) && e != EAnswered
    ensures Next(s, e).answering == s.answering && Next(s, e).results == s.results
  {
  }

  lemma {:induction false} WindowKeeps(s: State, window: seq<Event>, u: State)
    requires s.answering.Some? && Reaches(s, window, u) && EAnswered !in window
    ensures u.answering == s.answering && u.results == s.results
    decreases |window|
  {
    if window != [] {
      assert window[0] in window && forall e | e in window[1..] :: e in window;
      WindowStep(s, window[0]);
      hide Next;
      WindowKeeps(Next(s, window[0]), window[1..], u);
    }
  }

  /** Settling what a result answers, from any state with every invariant. */
  lemma AnswerSettles(u: State)
    requires Inv(u) && u.answering.Some?
    ensures var end := Answered(u);
            && end.requests == u.requests && Removed(u) <= u.calls.Keys
            && (forall c | c in Removed(u) ::
                  c in end.calls && end.calls[c] == [Admit(Submitted), Settle(u.answering.value.settlement)])
            && (forall c | c in u.calls && c !in Removed(u) :: c in end.calls && end.calls[c] == u.calls[c])
  {
    assert forall c | c in u.calls :: CallsOk(u, c);
  }

  /**
   * One result takes out exactly the outstanding requests ever reported started, plus the one it
   * names. Whatever the callbacks do before they are answered (submit, stop, lose the session, let
   * writes complete), all of them are then settled alike: with the completion its `turn.result`
   * carried, or with `stopped` when the result was an interrupt. No other request hears anything of it.
   */
  lemma ResultAnswersExactly(options: Options, events: seq<Event>, s: State, e: Envelope, window: seq<Event>, u: State)
    returns (t: State, end: State)
    requires Reaches(Initial(options), events, s) && Enabled(s, ELine(ResultLine(e)))
    requires Reaches(Next(s, ELine(ResultLine(e))), window, u) && EAnswered !in window
    ensures t == Next(s, ELine(ResultLine(e))) && t.calls == s.calls && t.requests == s.requests - Removed(t)
    ensures Removed(t) == s.requests * (StartedIn(events) + Named(e))
    ensures t.results == u.results == if IsInterrupt(e) then s.results else s.results + [ResultCompletion(s, e)]
    ensures t.answering.Some? && u.answering == t.answering && end == Next(u, EAnswered)
    ensures t.answering.value.settlement == if IsInterrupt(e) then SettledStopped else SettledWith(ResultCompletion(s, e))
    ensures if e.terminalReason == Some("aborted_streaming") || e.terminalReason == Some("aborted_tools")
            then t.answering.value.settlement == SettledStopped
            else t.answering.value.settlement.SettledWith? &&
                 Reports(AllSteps(Initial(options), events), e, options.session, options.structured,
                         t.answering.value.settlement.completion)
    ensures end.requests == u.requests
    ensures forall c | c in Removed(t) ::
      c in end.calls && end.calls[c] == [Admit(Submitted), Settle(t.answering.value.settlement)]
    ensures forall c | c in u.calls && c !in Removed(t) :: c in end.calls && end.calls[c] == u.calls[c]
  {
    hide CompletionFrom, IsInterrupt, Reports, AllSteps, Reaches;
    ReachesInv(options, events, s);
    RunStarted(Initial(options), events, s);
    RunReports(options, events, s, e);
    InterruptMeans(e);
    assert ArmIdleTimer(s) == s;
    t := Next(s, ELine(ResultLine(e)));
    NextInv(s, ELine(ResultLine(e)));
    hide Inv;
    WindowKeeps(t, window, u);
    RunInv(t, window, u);
    end := Next(u, EAnswered);
    AnswerSettles(u);
  }

  lemma InterruptMeans(e: Envelope)
    ensures IsInterrupt(e) <==> e.terminalReason == Some("aborted_streaming") || e.terminalReason == Some("aborted_tools")
  {
  }

  // ---- Cancellation ----

  /**
   * A cancelled command that was reported started is left for its result; one that was not fails
   * at once, and the text being generated is kept.
   */
  lemma CancelledBeforeOrAfterStart(options: Options, events: seq<Event>, s: State, c: Cmd) returns (t: State)
    requires Reaches(Initial(options), events, s) && c in s.requests
    requires Enabled(s, ELine(LifecycleLine(Some(c), Some(Cancelled))))
    ensures t == Next(s, ELine(LifecycleLine(Some(c), Some(Cancelled))))
    ensures c in t.requests <==> c in StartedIn(events)
    ensures c in t.calls
    ensures c in t.requests ==> t.calls[c] == [Admit(Submitted)]
    ensures c !in t.requests ==>
      t.calls[c] == [Admit(Submitted), Settle(SettledFailed("claude command was " + StateName(Cancelled)))] && t.turn == s.turn
    ensures t.requests == s.requests || t.requests == s.requests - {c}
  {
    ReachesInv(options, events, s);
    RunStarted(Initial(options), events, s);
    assert CallsOk(s, c);
    t := Next(s, ELine(LifecycleLine(Some(c), Some(Cancelled))));
  }

  // ---- Close ----

  /** A stop, a transport loss or an idle timeout settles every outstanding request with its own reason. */
  lemma CloseSettlesAll(options: Options, events: seq<Event>, s: State, e: Event) returns (reason: Settlement)
    requires Reaches(Initial(options), events, s) && Enabled(s, e) && (e.EStop? || e.EFail? || e.ETimer?)
    ensures reason == if e.EStop? then SettledStopped else if e.EFail? then SettledFailed(e.error) else SettledFailed(STALLED)
    ensures Next(s, e).closed && Next(s, e).requests == {}
    ensures forall c | c in s.requests ::
      && c in Next(s, e).calls && |Next(s, e).calls[c]| == 2 && Next(s, e).calls[c][1] == Settle(reason)
      && (Next(s, e).calls[c][0] == Admit(Submitted) <==> c !in s.unadmitted)
  {
    ReachesInv(options, events, s);
    reason := if e.EStop? then SettledStopped else if e.EFail? then SettledFailed(e.error) else SettledFailed(STALLED);
    assert Next(s, e) == Close(s, reason);
    assert forall c | c in s.calls :: CallsOk(s, c);
  }
}
