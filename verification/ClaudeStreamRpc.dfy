/**
 * The request association of one Claude Code session as an object, one method per stretch of code
 * that runs without a callback in between; each is one event of `ClaudeRequests`.
 */
module ClaudeStreamRpc {
  import opened Wrappers
  import opened ClaudeTurns
  import opened ClaudeRequests

  /** Nobody outside `who` has either of its callbacks called. */
  ghost predicate OnlyHear(before: map<Cmd, seq<Call>>, after: map<Cmd, seq<Call>>, who: set<Cmd>) {
    forall c | c !in who :: if c in before then c in after && after[c] == before[c] else c !in after
  }

  /** Each of `who` has its admission resolved now, if it was not before, and is then settled. */
  ghost predicate Settled(before: State, after: map<Cmd, seq<Call>>, who: set<Cmd>, admission: Admission, settlement: Settlement) {
    forall c | c in who && c in before.calls ::
      && c in after
      && after[c] == before.calls[c] + (if c in before.unadmitted then [Admit(admission)] else []) + [Settle(settlement)]
  }

  /** Whether a frame about a command ends its request before any result does. */
  predicate Ended(s: State, c: Cmd, state: CommandState) {
    c in s.requests && (state == Discarded || state == Refused || (state == Cancelled && c !in s.consumed))
  }

  class ClaudeCodeStreamRpc {
    const options: Options
    const aggregator: TurnAggregator
    var requests: set<Cmd>
    var unadmitted: set<Cmd>
    var consumed: set<Cmd>
    var timer: bool
    var closed: bool
    var answering: Option<Answering>
    var writes: set<Cmd>
    ghost var calls: map<Cmd, seq<Call>>
    ghost var started: set<Cmd>
    var results: seq<Completion>

    constructor (o: Options)
      ensures Now() == Initial(o) && Inv(Now()) && fresh(aggregator)
      ensures !closed && !timer && requests == {} && unadmitted == {} && writes == {} && answering == None
      ensures calls == map[] && results == []
    {
      options := o;
      aggregator := new TurnAggregator();
      requests, unadmitted, consumed, timer, closed := {}, {}, {}, false, false;
      answering, writes, calls, started, results := None, {}, map[], {}, [];
    }

    ghost function Now(): State
      reads this, aggregator
    {
      State(options, requests, unadmitted, consumed, timer, closed, aggregator.Now(), answering, writes, calls, started, results)
    }

    // ---- One request ----

    method AdmitRequest(c: Cmd, admission: Admission)
      modifies this`unadmitted, this`calls
      ensures Now() == AdmitAll(old(Now()), {c}, admission)
    {
      if c in unadmitted {
        calls := Called(calls, {c}, Admit(admission));
        unadmitted := unadmitted - {c};
      }
      assert {c} * old(unadmitted) == if c in old(unadmitted) then {c} else {};
      CalledNobody(old(calls), Admit(admission));
    }

    method SettleRequest(c: Cmd, settlement: Settlement)
      modifies this`calls
      ensures Now() == SettleAll(old(Now()), {c}, settlement)
    {
      calls := Called(calls, {c}, Settle(settlement));
    }

    method ClearIdle()
      modifies this`timer
      ensures Now() == ClearIdleIfEmpty(old(Now()))
    {
      if requests == {} && timer {
        timer := false;
      }
    }

    method ArmIdle()
      modifies this`timer
      ensures Now() == ArmIdleTimer(old(Now()))
    {
      if requests != {} {
        timer := true;
      }
    }

    /** Resolve what is unresolved and settle, request by request. */
    method SettleEach(who: set<Cmd>, admission: Admission, settlement: Settlement)
      modifies this`unadmitted, this`calls
      ensures Now() == SettleAll(AdmitAll(old(Now()), who, admission), who, settlement)
    {
      var todo := who;
      CalledNobody(calls, Admit(admission));
      CalledNobody(calls, Settle(settlement));
      assert {} * unadmitted == {};
      assert Now() == SettleAll(AdmitAll(old(Now()), who - todo, admission), who - todo, settlement);
      while todo != {}
        invariant todo <= who
        invariant Now() == SettleAll(AdmitAll(old(Now()), who - todo, admission), who - todo, settlement)
        decreases todo
      {
        ghost var before, done := Now(), who - todo;
        var c :| c in todo;
        AdmitRequest(c, admission);
        SettleRequest(c, settlement);
        todo := todo - {c};
        OneMore(old(Now()), done, c, admission, settlement);
        assert done + {c} == who - todo;
      }
      assert who - {} == who;
    }

    // ---- Submissions and their writes ----

    method SubmitPrompt(c: Cmd, writable: bool)
      requires Inv(Now()) && Fresh(Now(), c)
      modifies this
      ensures Inv(Now()) && Now() == SubmitCalled(old(Now()), c, writable)
      ensures OnlyHear(old(calls), calls, {c})
      ensures if closed || !writable then calls[c] == [Admit(NotRunning)] && requests == old(requests) && c !in requests
              else
                && calls[c] == [] && timer && requests == old(requests) + {c} && unadmitted == old(unadmitted) + {c}
                && writes == old(writes) + {c}
    {
      FreshIsNew(Now(), c);
      hide Inv;
      NextInv(Now(), ESubmit(c, writable));
      if closed || !writable {
        calls := calls[c := [Admit(NotRunning)]];
        return;
      }
      calls := calls[c := []];
      unadmitted := unadmitted + {c};
      requests := requests + {c};
      ArmIdle();
      writes := writes + {c};
    }

    method OnWritten(c: Cmd, failure: Option<string>)
      requires Inv(Now()) && c in writes
      modifies this
      ensures Inv(Now()) && Now() == Written(old(Now()), c, failure)
      ensures OnlyHear(old(calls), calls, {c})
      ensures writes == old(writes) - {c}
      ensures failure.None? ==> requests == old(requests) && consumed == old(consumed) && unadmitted == old(unadmitted) - {c}
      ensures failure.None? && c in old(unadmitted) ==> calls[c] == [Admit(Submitted)]
      ensures failure.Some? && c in old(requests) * old(unadmitted) ==>
                && requests == old(requests) - {c} && unadmitted == old(unadmitted) - {c} && consumed == old(consumed) - {c}
                && calls[c] == [Admit(Ambiguous(failure.value)), Settle(SettledFailed(failure.value))]
      ensures (if failure.None? then c !in old(unadmitted) else c !in old(requests) * old(unadmitted)) ==>
                calls == old(calls) && requests == old(requests)
    {
      WrittenTells(Now(), c, failure);
      hide Inv;
      NextInv(Now(), EWritten(c, failure));
      writes := writes - {c};
      if failure.None? {
        AdmitRequest(c, Submitted);
        return;
      }
      if c !in requests || c !in unadmitted {
        return;
      }
      requests := requests - {c};
      consumed := consumed - {c};
      ClearIdle();
      AdmitRequest(c, Ambiguous(failure.value));
      SettleRequest(c, SettledFailed(failure.value));
    }

    // ---- Close ----

    method CloseSession(settlement: Settlement)
      modifies this, aggregator
      ensures Now() == Close(old(Now()), settlement)
      ensures closed && requests == {} && consumed == {} && !timer
      ensures OnlyHear(old(calls), calls, old(requests))
      ensures Settled(old(Now()), calls, old(requests),
                Ambiguous(if settlement.SettledFailed? then settlement.error else STOPPED_BEFORE_ACK), settlement)
    {
      hide Discard;
      closed := true;
      var error := if settlement.SettledFailed? then settlement.error else STOPPED_BEFORE_ACK;
      SettleEach(requests, Ambiguous(error), settlement);
      requests := {};
      consumed := {};
      aggregator.DiscardTurn();
      ClearIdle();
    }

    method Fail(error: string)
      requires Inv(Now())
      modifies this, aggregator
      ensures Inv(Now()) && Now() == Close(old(Now()), SettledFailed(error))
    {
      hide Inv;
      NextInv(Now(), EFail(error));
      CloseSession(SettledFailed(error));
    }

    method Stop()
      requires Inv(Now())
      modifies this, aggregator
      ensures Inv(Now()) && Now() == Close(old(Now()), SettledStopped)
    {
      hide Inv;
      NextInv(Now(), EStop);
      CloseSession(SettledStopped);
    }

    method OnIdleTimeout()
      requires Inv(Now()) && timer && answering.None?
      modifies this, aggregator
      ensures Inv(Now()) && Now() == Close(old(Now()), SettledFailed(STALLED))
    {
      hide Inv;
      NextInv(Now(), ETimer);
      CloseSession(SettledFailed(STALLED));
    }

    // ---- Stream lines ----

    method AdmitOrEnd(c: Cmd, state: CommandState)
      modifies this`requests, this`unadmitted, this`calls, this`timer
      ensures Now() == Heard(old(Now()), c, state)
    {
      hide Called, StateName;
      if c in requests {
        AdmitRequest(c, Submitted);
        if state == Discarded || state == Refused || (state == Cancelled && c !in consumed) {
          requests := requests - {c};
          SettleRequest(c, SettledFailed("claude command was " + StateName(state)));
          ClearIdle();
        }
      }
    }

    method OnLifecycle(c: Cmd, state: CommandState)
      modifies this, aggregator
      ensures Now() == Lifecycle(old(Now()), c, state)
      ensures old(Inv(Now())) ==> Inv(Now())
      ensures OnlyHear(old(calls), calls, {c})
      ensures requests == old(requests) - (if Ended(old(Now()), c, state) then {c} else {})
      ensures c in old(requests) && old(Inv(Now())) ==>
                calls[c] == [Admit(Submitted)] +
                  if Ended(old(Now()), c, state) then [Settle(SettledFailed("claude command was " + StateName(state)))] else []
      ensures state == Started ==> c in consumed
      ensures aggregator.Now() == if state == Cancelled && c in old(consumed) then Discard(old(aggregator.Now())) else old(aggregator.Now())
    {
      LifecycleTells(Now(), c, state);
      LifecycleTakes(Now(), c, state);
      hide Inv, Heard, Discard, Called, OnlyHear, Ended;
      if state == Started {
        consumed := consumed + {c};
        started := started + {c};
      }
      AdmitOrEnd(c, state);
      if state == Cancelled && c in consumed {
        aggregator.DiscardTurn();
      }
    }

    method OnResult(e: Envelope)
      requires aggregator.result.None?
      modifies this, aggregator
      ensures Now() == ResultArrived(old(Now()), e)
      ensures answering.Some? && answering.value.requests == old(requests) * (old(consumed) + Named(e))
      ensures requests == old(requests) - answering.value.requests && consumed == {} && calls == old(calls)
      ensures results == old(results) + if answering.value.settlement.SettledWith? then [answering.value.settlement.completion] else []
      ensures aggregator.Now() == Discard(old(aggregator.Now()))
    {
      hide CompletionFrom, IsInterrupt;
      aggregator.AcceptLine(ResultLine(e));
      var outcome := aggregator.TakeOutcome();
      assert outcome == Some(ResultOutcome(old(Now()), e)) && aggregator.Now() == Discard(old(aggregator.Now()));
      var commandUuids := consumed;
      consumed := {};
      if e.userMessage.Some? {
        commandUuids := commandUuids + {e.userMessage.value};
      }
      var answered := {};
      var todo := commandUuids;
      while todo != {}
        invariant todo <= commandUuids
        invariant answered == old(requests) * (commandUuids - todo)
        invariant requests == old(requests) - answered
        invariant unchanged(this`unadmitted, this`timer, this`closed, this`answering, this`writes, this`calls, this`started, this`results)
        invariant consumed == {} && aggregator.Now() == Discard(old(aggregator.Now()))
        decreases todo
      {
        var id :| id in todo;
        todo := todo - {id};
        if id in requests {
          requests := requests - {id};
          answered := answered + {id};
        }
      }
      assert commandUuids == old(consumed) + Named(e) && commandUuids - {} == commandUuids;
      assert answered == AnsweredBy(old(Now()), e);
      ClearIdle();
      var interrupted := IsInterrupt(e);
      var completion := CompletionFrom(outcome.value, options.session, options.structured);
      if !interrupted {
        results := results + [completion];
      }
      answering := Some(Answering(answered, if interrupted then SettledStopped else SettledWith(completion)));
    }

    /** After the callbacks of a result: settle what it answered. */
    method FinishResult()
      requires Inv(Now()) && answering.Some?
      modifies this
      ensures Inv(Now()) && Now() == Answered(old(Now()))
      ensures OnlyHear(old(calls), calls, old(answering).value.requests) && requests == old(requests)
      ensures forall c | c in old(answering).value.requests && c in old(calls) ::
                calls[c] == [Admit(Submitted), Settle(old(answering).value.settlement)]
    {
      AnsweredTells(Now());
      hide Inv;
      NextInv(Now(), EAnswered);
      var a := answering.value;
      answering := None;
      SettleEach(a.requests, Submitted, a.settlement);
    }

    method OnLine(line: Line)
      requires Inv(Now()) && !closed && answering.None?
      modifies this, aggregator
      ensures Inv(Now()) && Now() == LineArrived(old(Now()), line)
      ensures timer <==> requests != {}
      ensures !line.LifecycleLine? ==> calls == old(calls)
      ensures !line.LifecycleLine? && !line.ResultLine? ==> requests == old(requests) && answering.None? && results == old(results)
    {
      assert aggregator.result.None?;
      hide Inv, Lifecycle, ResultArrived, Accept;
      NextInv(Now(), ELine(line));
      ArmIdle();
      match line {
        case LifecycleLine(command, state) =>
          if command.None? || state.None? {
            return;
          }
          OnLifecycle(command.value, state.value);
        case ResultLine(envelope) =>
          OnResult(envelope);
        case _ =>
          aggregator.AcceptLine(line);
      }
    }
  }

  lemma FreshIsNew(s: State, c: Cmd)
    requires Inv(s) && Fresh(s, c)
    ensures c !in s.requests
  {
  }

  lemma UnadmittedOpen(s: State, c: Cmd)
    requires Inv(s) && (c in s.requests || c in Removed(s))
    ensures c in s.calls && Open(s.calls[c], c !in s.unadmitted)
  {
    assert CallsOk(s, c);
  }

  lemma WrittenTells(s: State, c: Cmd, failure: Option<string>)
    requires Inv(s)
    ensures var t := Written(s, c, failure);
            && OnlyHear(s.calls, t.calls, {c})
            && (failure.None? && c in s.unadmitted ==> c in t.calls && t.calls[c] == [Admit(Submitted)])
            && (failure.Some? && c in s.requests * s.unadmitted ==>
                  c in t.calls && t.calls[c] == [Admit(Ambiguous(failure.value)), Settle(SettledFailed(failure.value))])
            && ((if failure.None? then c !in s.unadmitted else c !in s.requests * s.unadmitted) ==> t.calls == s.calls)
  {
    if c in s.unadmitted {
      UnadmittedOpen(s, c);
    }
    hide Inv;
  }

  lemma LifecycleTells(s: State, c: Cmd, state: CommandState)
    ensures var t := Lifecycle(s, c, state);
            && (Inv(s) ==> Inv(t))
            && OnlyHear(s.calls, t.calls, {c})
            && (Inv(s) && c in s.requests ==>
                  c in t.calls && t.calls[c] == [Admit(Submitted)] +
                    if Ended(s, c, state) then [Settle(SettledFailed("claude command was " + StateName(state)))] else [])
  {
    HearingTells(s, c, state);
    if Inv(s) {
      LifecycleInv(s, c, state);
      if c in s.requests {
        UnadmittedOpen(s, c);
      }
    }
    hide Inv, StateName, Discard, Called, OnlyHear;
  }

  lemma HearingTells(s: State, c: Cmd, state: CommandState)
    ensures var t := Lifecycle(s, c, state);
            && OnlyHear(s.calls, t.calls, {c})
            && (c in s.requests && c in s.calls ==>
                  && c in t.calls
                  && t.calls[c] == s.calls[c] + (if c in s.unadmitted then [Admit(Submitted)] else []) +
                       if Ended(s, c, state) then [Settle(SettledFailed("claude command was " + StateName(state)))] else [])
  {
    var noted := if state == Started then s.(consumed := s.consumed + {c}, started := s.started + {c}) else s;
    HeardTells(noted, c, state);
    hide StateName, Discard, Heard, OnlyHear;
  }

  lemma HeardTells(s: State, c: Cmd, state: CommandState)
    ensures var t := Heard(s, c, state);
            && OnlyHear(s.calls, t.calls, {c})
            && (c in s.requests && c in s.calls ==>
                  && c in t.calls
                  && t.calls[c] == s.calls[c] + (if c in s.unadmitted then [Admit(Submitted)] else []) +
                       if EndsAtOnce(s, c, state) then [Settle(SettledFailed("claude command was " + StateName(state)))] else [])
  {
    hide StateName;
  }

  lemma LifecycleTakes(s: State, c: Cmd, state: CommandState)
    ensures var t := Lifecycle(s, c, state);
            && t.requests == s.requests - (if Ended(s, c, state) then {c} else {})
            && (state == Started ==> c in t.consumed)
            && t.turn == if state == Cancelled && c in s.consumed then Discard(s.turn) else s.turn
  {
    hide StateName, Discard, Called;
  }

  lemma AnsweredTells(s: State)
    requires Inv(s) && s.answering.Some?
    ensures OnlyHear(s.calls, Answered(s).calls, Removed(s))
    ensures forall c | c in Removed(s) && c in s.calls ::
              c in Answered(s).calls && Answered(s).calls[c] == [Admit(Submitted), Settle(s.answering.value.settlement)]
  {
    forall c | c in Removed(s) && c in s.calls
      ensures c in Answered(s).calls && Answered(s).calls[c] == [Admit(Submitted), Settle(s.answering.value.settlement)]
    {
      UnadmittedOpen(s, c);
    }
  }

  lemma CalledNobody(calls: map<Cmd, seq<Call>>, call: Call)
    ensures Called(calls, {}, call) == calls
  {
  }

  lemma OneMore(s: State, done: set<Cmd>, c: Cmd, admission: Admission, settlement: Settlement)
    requires c !in done
    ensures SettleAll(AdmitAll(SettleAll(AdmitAll(s, done, admission), done, settlement), {c}, admission), {c}, settlement)
         == SettleAll(AdmitAll(s, done + {c}, admission), done + {c}, settlement)
  {
    var a := SettleAll(AdmitAll(SettleAll(AdmitAll(s, done, admission), done, settlement), {c}, admission), {c}, settlement);
    var b := SettleAll(AdmitAll(s, done + {c}, admission), done + {c}, settlement);
    assert a.calls.Keys == b.calls.Keys;
    assert forall d | d in a.calls :: a.calls[d] == b.calls[d];
    assert a.calls == b.calls;
    assert a.unadmitted == b.unadmitted;
  }
}
