/**
 * The requests of one Claude Code session: admission, settlement, the idle timer and close, as
 * submissions, write callbacks, stream lines, stops and timeouts interleave. Answering a result
 * takes two steps, because callbacks run between removing its requests and settling them.
 */
module ClaudeRequests {
  import opened Wrappers
  import opened ClaudeTurns

  datatype Admission = Submitted | Ambiguous(error: string) | NotRunning

  datatype Settlement =
    | SettledWith(completion: Completion)
    | SettledFailed(error: string)
    | SettledStopped

  /** A call of one of the two callbacks of a request. */
  datatype Call = Admit(admission: Admission) | Settle(settlement: Settlement)

  /** A result whose requests are removed and not yet settled. */
  datatype Answering = Answering(requests: set<Cmd>, settlement: Settlement)

  datatype Options = Options(session: Option<string>, structured: bool)

  datatype State = State(
    options: Options,
    requests: set<Cmd>,
    unadmitted: set<Cmd>, // requests whose `admit` is not yet null
    consumed: set<Cmd>,
    timer: bool,
    closed: bool,
    turn: Aggregate,
    answering: Option<Answering>,
    writes: set<Cmd>, // writes whose callback has not run
    calls: map<Cmd, seq<Call>>,
    started: set<Cmd>, // commands ever reported started
    results: seq<Completion>) // the completions of the `turn.result` events

  function Initial(options: Options): State {
    State(options, {}, {}, {}, false, false, EMPTY, None, {}, map[], {}, [])
  }

  // ---- Shared stretches ----

  function Called(calls: map<Cmd, seq<Call>>, who: set<Cmd>, call: Call): map<Cmd, seq<Call>> {
    map c | c in calls :: if c in who then calls[c] + [call] else calls[c]
  }

  /** Resolve the admissions not yet resolved. */
  function AdmitAll(s: State, who: set<Cmd>, admission: Admission): State {
    s.(calls := Called(s.calls, who * s.unadmitted, Admit(admission)), unadmitted := s.unadmitted - who)
  }

  function SettleAll(s: State, who: set<Cmd>, settlement: Settlement): State {
    s.(calls := Called(s.calls, who, Settle(settlement)))
  }

  function ArmIdleTimer(s: State): State {
    s.(timer := s.timer || s.requests != {})
  }

  function ClearIdleIfEmpty(s: State): State {
    s.(timer := s.timer && s.requests != {})
  }

  function Remove(s: State, who: set<Cmd>): State {
    ClearIdleIfEmpty(s.(requests := s.requests - who))
  }

  // ---- Submissions and their writes ----

  function SubmitCalled(s: State, c: Cmd, writable: bool): State {
    if s.closed || !writable then s.(calls := s.calls[c := [Admit(NotRunning)]])
    else
      ArmIdleTimer(s.(requests := s.requests + {c}, unadmitted := s.unadmitted + {c}, writes := s.writes + {c},
                      calls := s.calls[c := []]))
  }

  function WriteFailed(s: State, c: Cmd, error: string): State {
    if c !in s.requests || c !in s.unadmitted then s
    else
      SettleAll(AdmitAll(Remove(s.(consumed := s.consumed - {c}), {c}), {c}, Ambiguous(error)), {c}, SettledFailed(error))
  }

  function Written(s: State, c: Cmd, error: Option<string>): State {
    var done := s.(writes := s.writes - {c});
    if error.Some? then WriteFailed(done, c, error.value) else AdmitAll(done, {c}, Submitted)
  }

  // ---- Close ----

  const STOPPED_BEFORE_ACK := "claude resident session stopped before write acknowledgement"

  function Close(s: State, settlement: Settlement): State {
    var error := if settlement.SettledFailed? then settlement.error else STOPPED_BEFORE_ACK;
    SettleAll(AdmitAll(s, s.requests, Ambiguous(error)), s.requests, settlement)
    .(closed := true, requests := {}, consumed := {}, turn := Discard(s.turn), timer := false)
  }

  // ---- Stream lines ----

  predicate EndsAtOnce(s: State, c: Cmd, state: CommandState) {
    state == Discarded || state == Refused || (state == Cancelled && c !in s.consumed)
  }

  function StateName(state: CommandState): string {
    match state
    case Queued => "queued"
    case Started => "started"
    case Completed => "completed"
    case Cancelled => "cancelled"
    case Discarded => "discarded"
    case Refused => "refused"
  }

  /** A frame about a registered command admits it, and ends it unless it may still be answered. */
  function Heard(s: State, c: Cmd, state: CommandState): State {
    if c !in s.requests then s
    else
      var admitted := AdmitAll(s, {c}, Submitted);
      if EndsAtOnce(s, c, state) then
        SettleAll(Remove(admitted, {c}), {c}, SettledFailed("claude command was " + StateName(state)))
      else admitted
  }

  function Lifecycle(s: State, c: Cmd, state: CommandState): State {
    var noted := if state == Started then s.(consumed := s.consumed + {c}, started := s.started + {c}) else s;
    var heard := Heard(noted, c, state);
    if state == Cancelled && c in noted.consumed then heard.(turn := Discard(heard.turn)) else heard
  }

  function Named(e: Envelope): set<Cmd> {
    if e.userMessage.Some? then {e.userMessage.value} else {}
  }

  /** The requests one result answers. */
  function AnsweredBy(s: State, e: Envelope): set<Cmd> {
    s.requests * (s.consumed + Named(e))
  }

  function ResultOutcome(s: State, e: Envelope): Outcome {
    OutcomeOf(e, s.turn.lastAssistantText, s.turn.contextTokens, s.turn.initSessionId)
  }

  function ResultCompletion(s: State, e: Envelope): Completion {
    CompletionFrom(ResultOutcome(s, e), s.options.session, s.options.structured)
  }

  /** Everything up to the callbacks of a result: its requests are gone from the association. */
  function ResultArrived(s: State, e: Envelope): State {
    var settlement := if IsInterrupt(e) then SettledStopped else SettledWith(ResultCompletion(s, e));
    Remove(s, AnsweredBy(s, e)).(
      turn := Discard(s.turn), consumed := {},
      results := if IsInterrupt(e) then s.results else s.results + [ResultCompletion(s, e)],
      answering := Some(Answering(AnsweredBy(s, e), settlement)))
  }

  function Answered(s: State): State
    requires s.answering.Some?
  {
    var a := s.answering.value;
    SettleAll(AdmitAll(s, a.requests, Submitted), a.requests, a.settlement).(answering := None)
  }

  function LineArrived(s: State, line: Line): State {
    var t := ArmIdleTimer(s);
    match line
    case LifecycleLine(command, state) =>
      if command.Some? && state.Some? then Lifecycle(t, command.value, state.value) else t
    case ResultLine(envelope) => ResultArrived(t, envelope)
    case _ => t.(turn := Accept(t.turn, line))
  }

  // ---- Runs ----

  const STALLED := "claude resident requests stalled: no stream activity"

  datatype Event =
    | ESubmit(c: Cmd, writable: bool)
    | EWritten(c: Cmd, failure: Option<string>)
    | ELine(line: Line)
    | EAnswered
    | EFail(error: string)
    | EStop
    | ETimer

  /** A command uuid is fresh: never submitted before, and never named by the native side. */
  predicate Fresh(s: State, c: Cmd) {
    c !in s.calls && c !in s.started
  }

  predicate Enabled(s: State, e: Event) {
    match e
    case ESubmit(c, _) => Fresh(s, c)
    case EWritten(c, _) => c in s.writes
    case ELine(_) => !s.closed && s.answering.None?
    case EAnswered => s.answering.Some?
    case EFail(_) => true
    case EStop => true
    case ETimer => s.timer && s.answering.None?
  }

  function Next(s: State, e: Event): State
    requires Enabled(s, e)
  {
    match e
    case ESubmit(c, writable) => SubmitCalled(s, c, writable)
    case EWritten(c, error) => Written(s, c, error)
    case ELine(line) => LineArrived(s, line)
    case EAnswered => Answered(s)
    case EFail(error) => Close(s, SettledFailed(error))
    case EStop => Close(s, SettledStopped)
    case ETimer => Close(s, SettledFailed(STALLED))
  }

  ghost predicate Reaches(s: State, events: seq<Event>, end: State)
    decreases |events|
  {
    if events == [] then s == end
    else Enabled(s, events[0]) && Reaches(Next(s, events[0]), events[1..], end)
  }

  // ---- What every run keeps ----

  /** Removed from the association by a result and not yet settled. */
  function Removed(s: State): set<Cmd> {
    if s.answering.Some? then s.answering.value.requests else {}
  }

  predicate Open(calls: seq<Call>, admitted: bool) {
    calls == if admitted then [Admit(Submitted)] else []
  }

  /** One admission, then one settlement; one that was never confirmed is not completed. */
  predicate Closed(calls: seq<Call>) {
    || calls == [Admit(NotRunning)]
    || (&& |calls| == 2 && calls[0].Admit? && calls[1].Settle?
        && (calls[0].admission == Submitted || (calls[0].admission.Ambiguous? && !calls[1].settlement.SettledWith?)))
  }

  predicate CallsOk(s: State, c: Cmd) {
    c in s.calls &&
    if c in s.requests || c in Removed(s) then Open(s.calls[c], c !in s.unadmitted) else Closed(s.calls[c])
  }

  ghost predicate Inv(s: State) {
    && s.requests !! Removed(s)
    && s.requests + Removed(s) <= s.calls.Keys
    && s.unadmitted <= s.requests + Removed(s)
    && (forall c | c in s.calls :: CallsOk(s, c))
    && s.consumed <= s.started
    && s.requests * s.started <= s.consumed
    && (s.timer <==> s.requests != {})
    && (s.closed ==> s.requests == {})
    && s.turn.result.None?
  }

  lemma SubmitInv(s: State, c: Cmd, writable: bool)
    requires Inv(s) && Fresh(s, c)
    ensures Inv(SubmitCalled(s, c, writable))
  {
    var t := SubmitCalled(s, c, writable);
    assert forall d | d in t.calls && d != c :: CallsOk(s, d);
  }

  lemma AdmitInv(s: State, who: set<Cmd>)
    requires Inv(s)
    ensures Inv(AdmitAll(s, who, Submitted))
  {
    var t := AdmitAll(s, who, Submitted);
    assert forall d | d in t.calls :: CallsOk(s, d) && CallsOk(t, d);
  }

  /** A request that is admitted, or is admitted on the way out, may be settled with its removal. */
  lemma EndInv(s: State, c: Cmd, settlement: Settlement)
    requires Inv(s) && c in s.requests && c !in s.unadmitted
    ensures Inv(SettleAll(Remove(s, {c}), {c}, settlement))
  {
    var t := SettleAll(Remove(s, {c}), {c}, settlement);
    assert forall d | d in t.calls :: CallsOk(s, d) && CallsOk(t, d);
  }

  lemma WriteFailedInv(s: State, c: Cmd, error: string)
    requires Inv(s)
    ensures Inv(WriteFailed(s, c, error))
  {
    var t := WriteFailed(s, c, error);
    assert s.consumed - {c} <= s.started;
    assert forall d | d in t.calls :: CallsOk(s, d) && CallsOk(t, d);
  }

  lemma WrittenInv(s: State, c: Cmd, error: Option<string>)
    requires Inv(s)
    ensures Inv(Written(s, c, error))
  {
    var done := s.(writes := s.writes - {c});
    assert Inv(done) by {
      assert forall d | d in done.calls :: CallsOk(s, d) && CallsOk(done, d);
    }
    hide Inv;
    AdmitInv(done, {c});
    if error.Some? {
      WriteFailedInv(done, c, error.value);
    }
  }

  lemma CloseInv(s: State, settlement: Settlement)
    requires Inv(s) && !settlement.SettledWith?
    ensures Inv(Close(s, settlement))
  {
    var t := Close(s, settlement);
    assert forall d | d in t.calls :: CallsOk(s, d);
  }

  lemma StartedInv(s: State, c: Cmd)
    requires Inv(s)
    ensures Inv(s.(consumed := s.consumed + {c}, started := s.started + {c}))
  {
    var t := s.(consumed := s.consumed + {c}, started := s.started + {c});
    assert forall d | d in t.calls :: CallsOk(s, d) && CallsOk(t, d);
  }

  lemma DiscardInv(s: State)
    requires Inv(s)
    ensures Inv(s.(turn := Discard(s.turn)))
  {
    var t := s.(turn := Discard(s.turn));
    assert forall d | d in t.calls :: CallsOk(s, d) && CallsOk(t, d);
  }

  lemma LifecycleInv(s: State, c: Cmd, state: CommandState)
    requires Inv(s)
    ensures Inv(Lifecycle(s, c, state))
  {
    hide Inv, StateName, Discard;
    StartedInv(s, c);
    var noted := if state == Started then s.(consumed := s.consumed + {c}, started := s.started + {c}) else s;
    AdmitInv(noted, {c});
    var admitted := if c in noted.requests then AdmitAll(noted, {c}, Submitted) else noted;
    var settlement := SettledFailed("claude command was " + StateName(state));
    var ends := c in noted.requests && EndsAtOnce(noted, c, state);
    if ends {
      EndInv(admitted, c, settlement);
    }
    DiscardInv(if ends then SettleAll(Remove(admitted, {c}), {c}, settlement) else admitted);
  }

  lemma ResultInv(s: State, e: Envelope)
    requires Inv(s) && s.answering.None?
    ensures Inv(ResultArrived(s, e))
  {
    var t := ResultArrived(s, e);
    assert forall d | d in t.calls :: CallsOk(s, d);
  }

  lemma AnsweredInv(s: State)
    requires Inv(s) && s.answering.Some?
    ensures Inv(Answered(s))
  {
    var t := Answered(s);
    assert forall d | d in t.calls :: CallsOk(s, d);
  }

  lemma NextInv(s: State, e: Event)
    requires Inv(s) && Enabled(s, e)
    ensures Inv(Next(s, e))
  {
    assert ArmIdleTimer(s) == s;
    hide Inv;
    match e {
      case ESubmit(c, writable) => SubmitInv(s, c, writable);
      case EWritten(c, error) => WrittenInv(s, c, error);
      case EAnswered => AnsweredInv(s);
      case EFail(error) => CloseInv(s, SettledFailed(error));
      case EStop => CloseInv(s, SettledStopped);
      case ETimer => CloseInv(s, SettledFailed(STALLED));
      case ELine(line) =>
        match line {
          case LifecycleLine(command, state) =>
            if command.Some? && state.Some? {
              LifecycleInv(s, command.value, state.value);
            }
          case ResultLine(envelope) => ResultInv(s, envelope);
          case _ => AcceptInv(s, line);
        }
    }
  }

  lemma AcceptInv(s: State, line: Line)
    requires Inv(s) && !line.ResultLine?
    ensures Inv(s.(turn := Accept(s.turn, line)))
  {
    var t := s.(turn := Accept(s.turn, line));
    assert forall d | d in t.calls :: CallsOk(s, d) && CallsOk(t, d);
  }

  lemma {:induction false} RunInv(s: State, events: seq<Event>, end: State)
    requires Inv(s) && Reaches(s, events, end)
    ensures Inv(end)
    decreases |events|
  {
    if events != [] {
      NextInv(s, events[0]);
      RunInv(Next(s, events[0]), events[1..], end);
    }
  }
}
