/** What one native turn of a Claude Code session came to: aggregation and its completion. */
module ClaudeTurns {
  import opened Wrappers

  datatype Cmd = Cmd(n: nat)

  datatype CommandState = Queued | Started | Completed | Cancelled | Discarded | Refused

  datatype Envelope = Envelope(
    subtype: Option<string>,
    isError: bool,
    terminalReason: Option<string>,
    text: Option<string>,
    sessionId: Option<string>,
    userMessage: Option<Cmd>,
    errors: seq<string>,
    hasStructuredOutput: bool,
    tokens: Option<nat>)

  /** One decoded line; a field the wire left out or mistyped is `None`. */
  datatype Line =
    | InitLine(sessionId: Option<string>)
    | AssistantLine(text: string, main: bool, contextTokens: Option<nat>)
    | LifecycleLine(command: Option<Cmd>, state: Option<CommandState>)
    | ResultLine(envelope: Envelope)
    | OtherLine

  datatype Outcome = Outcome(
    isError: bool,
    text: string,
    sessionId: Option<string>,
    subtype: Option<string>,
    terminalReason: Option<string>,
    errors: seq<string>,
    hasStructuredOutput: bool,
    usage: Option<Usage>)

  datatype Usage = Usage(tokens: nat, contextTokens: Option<nat>)

  // ---- The aggregator ----

  datatype Aggregate = Aggregate(
    lastAssistantText: string,
    contextTokens: Option<nat>,
    result: Option<Envelope>,
    initSessionId: Option<string>)

  const EMPTY := Aggregate("", None, None, None)

  function Accept(a: Aggregate, line: Line): Aggregate {
    match line
    case InitLine(sessionId) => if sessionId.Some? then a.(initSessionId := sessionId) else a
    case AssistantLine(text, main, tokens) =>
      a.(lastAssistantText := if text != "" then text else a.lastAssistantText,
         contextTokens := if main then tokens else a.contextTokens)
    case ResultLine(envelope) => a.(result := Some(envelope))
    case _ => a
  }

  function Discard(a: Aggregate): Aggregate {
    Aggregate("", None, None, a.initSessionId)
  }

  function OutcomeOf(e: Envelope, lastText: string, contextTokens: Option<nat>, session: Option<string>): Outcome {
    Outcome(e.isError,
            if e.text.Some? && e.text.value != "" then e.text.value else lastText,
            if e.sessionId.Some? then e.sessionId else session,
            e.subtype, e.terminalReason, e.errors, e.hasStructuredOutput,
            if e.tokens.Some? then Some(Usage(e.tokens.value, contextTokens)) else None)
  }

  /**
   * What an outcome says: the verdict, explanations and structure of its result, the result's own
   * text or else what was last said, its own session or else the one announced, and what it cost.
   */
  ghost predicate OutcomeTells(o: Outcome, e: Envelope, said: string, measured: Option<nat>, announced: Option<string>) {
    && (o.isError <==> e.isError) && (o.hasStructuredOutput <==> e.hasStructuredOutput)
    && o.errors == e.errors && o.subtype == e.subtype && o.terminalReason == e.terminalReason
    && (e.text.Some? && e.text.value != "" ==> o.text == e.text.value)
    && (e.text.None? || e.text.value == "" ==> o.text == said)
    && (e.sessionId.Some? ==> o.sessionId == e.sessionId) && (e.sessionId.None? ==> o.sessionId == announced)
    && (o.usage.Some? <==> e.tokens.Some?)
    && (o.usage.Some? ==> Some(o.usage.value.tokens) == e.tokens && o.usage.value.contextTokens == measured)
  }

  class TurnAggregator {
    var lastAssistantText: string
    var contextTokens: Option<nat>
    var result: Option<Envelope>
    var initSessionId: Option<string>

    constructor ()
      ensures Now() == EMPTY
    {
      lastAssistantText, contextTokens, result, initSessionId := "", None, None, None;
    }

    ghost function Now(): Aggregate
      reads this
    {
      Aggregate(lastAssistantText, contextTokens, result, initSessionId)
    }

    method AcceptLine(line: Line)
      modifies this
      ensures Now() == Accept(old(Now()), line)
      ensures line.ResultLine? ==> Now() == old(Now()).(result := Some(line.envelope))
      ensures !line.ResultLine? ==> forall steps | Tells(old(Now()), steps) :: Tells(Now(), steps + [Feed(line)])
    {
      match line {
        case InitLine(id) =>
          if id.Some? {
            initSessionId := id;
          }
        case AssistantLine(text, main, tokens) =>
          if text != "" {
            lastAssistantText := text;
          }
          if main {
            contextTokens := tokens;
          }
        case ResultLine(envelope) =>
          result := Some(envelope);
        case _ =>
      }
      ghost var before, after := old(Now()), Now();
      forall steps | !line.ResultLine? && Tells(before, steps) ensures Tells(after, steps + [Feed(line)]) {
        TellsNext(before, steps, line);
      }
    }

    method DiscardTurn()
      modifies this
      ensures Now() == Discard(old(Now()))
    {
      result := None;
      lastAssistantText := "";
      contextTokens := None;
    }

    /** Consume one native result boundary, keeping the session identity. */
    method TakeOutcome() returns (outcome: Option<Outcome>)
      modifies this
      ensures old(result).None? ==> outcome.None? && Now() == old(Now())
      ensures old(result).Some? ==>
        && Now() == Discard(old(Now()))
        && outcome == Some(OutcomeOf(old(result).value, old(lastAssistantText), old(contextTokens), old(initSessionId)))
        && OutcomeTells(outcome.value, old(result).value, old(lastAssistantText), old(contextTokens), old(initSessionId))
        && result == None && initSessionId == old(initSessionId)
    {
      if result.None? {
        return None;
      }
      var e := result.value;
      outcome := Some(OutcomeOf(e, lastAssistantText, contextTokens, initSessionId));
      DiscardTurn();
    }
  }

  // ---- An outcome depends on its own turn only ----

  /** One thing that happens to an aggregator; a result is taken as soon as it arrives. */
  datatype Step = Feed(line: Line) | Drop

  predicate EndsTurn(step: Step) {
    step == Drop || step.line.ResultLine?
  }

  function Take(a: Aggregate, step: Step): Aggregate {
    if step == Drop then Discard(a)
    else if step.line.ResultLine? then Discard(Accept(a, step.line))
    else Accept(a, step.line)
  }

  function After(steps: seq<Step>): Aggregate {
    if steps == [] then EMPTY else Take(After(steps[..|steps| - 1]), steps[|steps| - 1])
  }

  /** The steps since the last result or discard. */
  function ThisTurn(steps: seq<Step>): seq<Step>
  {
    if steps == [] || EndsTurn(steps[|steps| - 1]) then [] else ThisTurn(steps[..|steps| - 1]) + [steps[|steps| - 1]]
  }

  predicate Says(step: Step) {
    step.Feed? && step.line.AssistantLine? && step.line.text != ""
  }

  predicate Measures(step: Step) {
    step.Feed? && step.line.AssistantLine? && step.line.main
  }

  predicate Identifies(step: Step) {
    step.Feed? && step.line.InitLine? && step.line.sessionId.Some?
  }

  /** The last step at which `p` holds. */
  function LastOf(steps: seq<Step>, p: Step -> bool): Option<Step> {
    if steps == [] then None
    else if p(steps[|steps| - 1]) then Some(steps[|steps| - 1])
    else LastOf(steps[..|steps| - 1], p)
  }

  lemma {:induction false} LastOfIsLast(steps: seq<Step>, p: Step -> bool)
    ensures LastOf(steps, p) == None ==> forall k | 0 <= k < |steps| :: !p(steps[k])
    ensures LastOf(steps, p).Some? ==>
      exists k | 0 <= k < |steps| :: LastOf(steps, p) == Some(steps[k]) && p(steps[k]) && forall j | k < j < |steps| :: !p(steps[j])
  {
    if steps != [] && !p(steps[|steps| - 1]) {
      var prior := steps[..|steps| - 1];
      LastOfIsLast(prior, p);
      assert forall j | 0 <= j < |prior| :: prior[j] == steps[j];
    }
  }

  /** What the model last said in these steps. */
  function Said(steps: seq<Step>): string {
    var last := LastOf(steps, Says);
    if last.Some? && Says(last.value) then last.value.line.text else ""
  }

  /** The context size the main conversation last reported in these steps. */
  function Measured(steps: seq<Step>): Option<nat> {
    var last := LastOf(steps, Measures);
    if last.Some? && Measures(last.value) then last.value.line.contextTokens else None
  }

  /** The session these steps last announced. */
  function Announced(steps: seq<Step>): Option<string> {
    var last := LastOf(steps, Identifies);
    if last.Some? && Identifies(last.value) then last.value.line.sessionId else None
  }

  lemma LastOfSnoc(steps: seq<Step>, step: Step, p: Step -> bool)
    ensures LastOf(steps + [step], p) == if p(step) then Some(step) else LastOf(steps, p)
  {
    assert (steps + [step])[..|steps|] == steps;
  }

  /** An aggregate with no result pending tells what was last said and measured in this turn, and the session last announced. */
  ghost predicate Tells(a: Aggregate, steps: seq<Step>) {
    a == Aggregate(Said(ThisTurn(steps)), Measured(ThisTurn(steps)), None, Announced(steps))
  }

  lemma TellsNext(a: Aggregate, steps: seq<Step>, line: Line)
    requires Tells(a, steps) && !line.ResultLine?
    ensures Tells(Accept(a, line), steps + [Feed(line)])
  {
    var longer := steps + [Feed(line)];
    assert longer[..|longer| - 1] == steps;
    assert ThisTurn(longer) == ThisTurn(steps) + [Feed(line)];
    hide ThisTurn, LastOf;
    LastOfSnoc(steps, Feed(line), Identifies);
    LastOfSnoc(ThisTurn(steps), Feed(line), Says);
    LastOfSnoc(ThisTurn(steps), Feed(line), Measures);
  }

  /** After a result was taken, or the turn discarded, only the announced session is left. */
  lemma TellsAnew(a: Aggregate, steps: seq<Step>, step: Step)
    requires a.initSessionId == Announced(steps) && EndsTurn(step)
    ensures Tells(Discard(a), steps + [step])
  {
    var longer := steps + [step];
    assert longer[..|longer| - 1] == steps;
    assert ThisTurn(longer) == [];
    assert Said([]) == "" && Measured([]) == None;
    LastOfSnoc(steps, step, Identifies);
  }

  lemma {:induction false} AfterIsLocal(steps: seq<Step>)
    ensures Tells(After(steps), steps)
  {
    if steps != [] {
      var prior, last := steps[..|steps| - 1], steps[|steps| - 1];
      assert steps == prior + [last];
      AfterIsLocal(prior);
      if EndsTurn(last) {
        TellsAnew(if last == Drop then After(prior) else Accept(After(prior), last.line), prior, last);
      } else {
        TellsNext(After(prior), prior, last.line);
      }
    }
  }

  /** The outcome a result envelope gets when it arrives after these steps. */
  function OutcomeAfter(steps: seq<Step>, e: Envelope): Outcome {
    var a := Accept(After(steps), ResultLine(e));
    OutcomeOf(e, a.lastAssistantText, a.contextTokens, a.initSessionId)
  }

  /**
   * An outcome is made of the result itself, what was said and measured since the last result or
   * discard, and the session announced: nothing of an earlier turn gets into it.
   */
  lemma OutcomeIsLocal(steps: seq<Step>, e: Envelope)
    ensures OutcomeTells(OutcomeAfter(steps, e), e, Said(ThisTurn(steps)), Measured(ThisTurn(steps)), Announced(steps))
  {
    AfterIsLocal(steps);
  }

  // ---- Completions ----

  datatype Completion = Failed(error: string) | CompletedWith(resultText: Option<string>)

  function Join(parts: seq<string>): string {
    if parts == [] then "" else if |parts| == 1 then parts[0] else parts[0] + "; " + Join(parts[1..])
  }

  /** One text is itself, and between two lists of texts stands a semicolon. */
  lemma {:induction false} JoinMeans(a: seq<string>, b: seq<string>)
    ensures |a| == 1 ==> Join(a) == a[0]
    ensures a != [] && b != [] ==> Join(a + b) == Join(a) + "; " + Join(b)
  {
    if a != [] && b != [] {
      assert (a + b)[0] == a[0] && (a + b)[1..] == a[1..] + b;
      if |a| == 1 {
        assert a[1..] + b == b;
      } else {
        JoinMeans(a[1..], b);
      }
    }
  }

  function OrElse(a: string, b: string): string {
    if a != "" then a else b
  }

  function Plain(s: Option<string>): string {
    if s.Some? then s.value else ""
  }

  /** What could explain a failed result, the preferred first. */
  function Explanations(o: Outcome): seq<string> {
    [Join(o.errors), if o.subtype == Some("success") then o.text else "", Plain(o.terminalReason), Plain(o.subtype),
     "claude turn failed"]
  }

  /** Claude's own explanation of a failed result: the first there is, and there always is one. */
  function TurnFailureMessage(o: Outcome): (m: string)
    ensures m != ""
    ensures exists k | 0 <= k < |Explanations(o)| ::
              m == Explanations(o)[k] && forall j | 0 <= j < k :: Explanations(o)[j] == ""
  {
    var e := Explanations(o);
    OrElse(e[0], OrElse(e[1], OrElse(e[2], OrElse(e[3], e[4]))))
  }

  predicate ForeignSession(o: Outcome, pinned: Option<string>) {
    o.sessionId.Some? && o.sessionId.value != "" && o.sessionId != pinned
  }

  const FOREIGN_SESSION := "claude-code returned a session id that differs from the pinned native session"
  const NO_STRUCTURED_OUTPUT := "claude turn did not return structured_output for a --json-schema session"

  /** A turn completes only in the pinned session, without an error, and with the structure asked for. */
  function CompletionFrom(o: Outcome, pinned: Option<string>, structured: bool): (c: Completion)
    ensures c.CompletedWith? <==> !ForeignSession(o, pinned) && !o.isError && (structured ==> o.hasStructuredOutput)
    ensures c.CompletedWith? && c.resultText.Some? ==> c.resultText.value != ""
    ensures c.Failed? ==> c.error != ""
  {
    if ForeignSession(o, pinned) then Failed(FOREIGN_SESSION)
    else if o.isError then Failed(TurnFailureMessage(o))
    else if structured && !o.hasStructuredOutput then Failed(NO_STRUCTURED_OUTPUT)
    else CompletedWith(if o.text == "" then None else Some(o.text))
  }

  // ---- What a result completes with, from the result and the steps before it ----

  /** What was last said since the last result or discard, or nothing. */
  ghost predicate LastSaid(steps: seq<Step>, text: string) {
    if exists i :: SaidAt(steps, i) then exists i :: SaidAt(steps, i) && text == steps[i].line.text
    else text == ""
  }

  /** Step `i` is the last to say anything, and no result or discard came after it. */
  predicate SaidAt(steps: seq<Step>, i: int) {
    0 <= i < |steps| && Says(steps[i]) && forall j | i < j < |steps| :: !Says(steps[j]) && !EndsTurn(steps[j])
  }

  /** The session announced last, if any. */
  ghost predicate LastAnnounced(steps: seq<Step>, session: Option<string>) {
    if session.Some? then exists i | 0 <= i < |steps| :: AnnouncedAt(steps, i) && steps[i].line.sessionId == session
    else forall i | 0 <= i < |steps| :: !Identifies(steps[i])
  }

  predicate AnnouncedAt(steps: seq<Step>, i: nat)
    requires i < |steps|
  {
    Identifies(steps[i]) && forall j | i < j < |steps| :: !Identifies(steps[j])
  }

  /** `m` is the first of these texts that says anything. */
  ghost predicate FirstOf(m: string, texts: seq<string>) {
    m != "" && exists k | 0 <= k < |texts| :: m == texts[k] && forall j | 0 <= j < k :: texts[j] == ""
  }

  /**
   * A result completes exactly when it is not an error, ran in the pinned session, and has the
   * structure asked for; its text is its own or else what was last said in its turn. An error is
   * explained by its errors, then, though called a success, by its text, then by its reason and subtype.
   */
  ghost predicate Reports(steps: seq<Step>, e: Envelope, pinned: Option<string>, structured: bool, c: Completion) {
    exists said, session ::
      && LastSaid(steps, said)
      && (if e.sessionId.Some? then session == e.sessionId else LastAnnounced(steps, session))
      && ReportsWith(e, said, session, pinned, structured, c)
  }

  ghost predicate ReportsWith(e: Envelope, said: string, session: Option<string>, pinned: Option<string>,
                              structured: bool, c: Completion)
  {
    var foreign := session.Some? && session.value != "" && session != pinned;
    var text := if e.text.Some? && e.text.value != "" then e.text.value else said;
    && (c.CompletedWith? <==> !e.isError && !foreign && (structured ==> e.hasStructuredOutput))
    && (c.CompletedWith? ==> c.resultText == if text == "" then None else Some(text))
    && (foreign ==> c == Failed(FOREIGN_SESSION))
    && (!foreign && e.isError ==> c.Failed? && FirstOf(c.error, [
          Join(e.errors),
          if e.subtype == Some("success") then text else "",
          if e.terminalReason.Some? then e.terminalReason.value else "",
          if e.subtype.Some? then e.subtype.value else "",
          "claude turn failed"]))
    && (!foreign && !e.isError && c.Failed? ==> c == Failed(NO_STRUCTURED_OUTPUT))
  }

  lemma {:induction false} SaidIsLast(steps: seq<Step>)
    ensures LastSaid(steps, Said(ThisTurn(steps)))
  {
    if steps == [] {
      assert forall i :: !SaidAt(steps, i);
    } else {
      var n := |steps| - 1;
      var prior, last := steps[..n], steps[n];
      SaidIsLast(prior);
      assert ThisTurn(steps) == if EndsTurn(last) then [] else ThisTurn(prior) + [last];
      assert Said([]) == "";
      hide ThisTurn, LastOf;
      if EndsTurn(last) {
        assert forall i | SaidAt(steps, i) :: i < n;
      } else {
        LastOfSnoc(ThisTurn(prior), last, Says);
        if Says(last) {
          assert SaidAt(steps, n);
        } else {
          SaidAtBefore(steps, Said(ThisTurn(prior)));
        }
      }
    }
  }

  lemma SaidAtBefore(steps: seq<Step>, text: string)
    requires steps != [] && !Says(steps[|steps| - 1]) && !EndsTurn(steps[|steps| - 1])
    requires LastSaid(steps[..|steps| - 1], text)
    ensures LastSaid(steps, text)
  {
    var n := |steps| - 1;
    assert forall j | 0 <= j < n :: steps[..n][j] == steps[j];
    hide Says, EndsTurn;
    forall i ensures SaidAt(steps, i) <==> SaidAt(steps[..n], i) {
    }
  }

  lemma {:induction false} AnnouncedIsLast(steps: seq<Step>)
    ensures LastAnnounced(steps, Announced(steps))
  {
    LastOfIsLast(steps, Identifies);
    var last := LastOf(steps, Identifies);
    if last.Some? {
      var k :| 0 <= k < |steps| && last == Some(steps[k]) && Identifies(steps[k]) && forall j | k < j < |steps| :: !Identifies(steps[j]);
      assert AnnouncedAt(steps, k);
    }
  }

  lemma ResultReports(steps: seq<Step>, e: Envelope, pinned: Option<string>, structured: bool)
    ensures Reports(steps, e, pinned, structured, CompletionFrom(OutcomeAfter(steps, e), pinned, structured))
  {
    var said, announced := Said(ThisTurn(steps)), Announced(steps);
    var session := if e.sessionId.Some? then e.sessionId else announced;
    OutcomeIsLocal(steps, e);
    SaidIsLast(steps);
    AnnouncedIsLast(steps);
    OutcomeReports(OutcomeAfter(steps, e), e, said, Measured(ThisTurn(steps)), announced, pinned, structured);
  }

  lemma OutcomeReports(o: Outcome, e: Envelope, said: string, measured: Option<nat>, announced: Option<string>,
                       pinned: Option<string>, structured: bool)
    requires OutcomeTells(o, e, said, measured, announced)
    ensures ReportsWith(e, said, if e.sessionId.Some? then e.sessionId else announced, pinned, structured,
                        CompletionFrom(o, pinned, structured))
  {
    var m := TurnFailureMessage(o);
    var k :| 0 <= k < |Explanations(o)| && m == Explanations(o)[k] && forall j | 0 <= j < k :: Explanations(o)[j] == "";
    assert FirstOf(m, Explanations(o));
  }

  /** Whether a result is the artifact of an interrupt. */
  predicate IsInterrupt(e: Envelope) {
    e.terminalReason == Some("aborted_streaming") || e.terminalReason == Some("aborted_tools")
  }
}
