/**
 * The Codex turn manager: queued submissions, the records of native turns, the collector
 * and the reasoning ledger, one method per stretch of code between two awaits.
 */
module TurnManager {
  import opened Wrappers
  import opened EventSinks
  import opened CodexActivity
  import opened CodexCompletion
  import opened CodexReasoning
  import opened TurnRecords
  import TurnCollector

  datatype Call = Call(n: nat)

  datatype Admission =
    | Submitted(id: Id)
    | Ambiguous(error: string)
    | Refused(error: string)
    | Stopped

  /** The decision at the head of the queue: none, waiting for its effort, or for its `turn/start` reply. */
  datatype Decision = Idle | Asking(call: Call) | Starting(call: Call, id: Id)

  function CallsOf(active: Decision): set<Call> {
    match active
    case Idle => {}
    case Asking(call) => {call}
    case Starting(call, _) => {call}
  }

  /** Exactly the items of the turns whose records went are gone. */
  ghost predicate Released(before: map<string, seq<ThreadItem>>, after: map<string, seq<ThreadItem>>, turns: Turns, left: Turns) {
    && (forall t :: t in after <==> t in before && (t in turns ==> t in left))
    && (forall t | t in after :: after[t] == before[t])
  }

  class TurnManager {
    const sink: EventSink<Activity>
    const reasoning: CodexReasoningActivity
    const collector: TurnCollector.TurnCollector
    const codec: Option<Codec>
    var subscribed: bool // the collector has been attached, once
    var queue: seq<Call>
    var active: Decision
    var pendingAdmissions: set<Call>
    var outcomes: map<Call, Admission>
    var inFlightNativeAdmissions: set<Id>
    var nextNativeAdmission: nat
    var nativeTurns: Turns
    var protocolFailure: Option<string>
    var stopped: bool
    ghost var submitted: set<Id>
    ghost var attempts: multiset<Id>
    ghost var settlement: map<Id, Settlement>

    constructor (codec: Option<Codec>)
      ensures Valid() && Now() == FRESH && sink.log == [] && !subscribed && !collector.closed
      ensures queue == [] && active == Idle && pendingAdmissions == {} && outcomes == map[]
      ensures fresh(sink) && fresh(reasoning) && fresh(collector)
    {
      var log := new EventSink<Activity>();
      sink := log;
      reasoning := new CodexReasoningActivity(log);
      collector := new TurnCollector.TurnCollector();
      this.codec := codec;
      subscribed, queue, active, pendingAdmissions, outcomes := false, [], Idle, {}, map[];
      inFlightNativeAdmissions, nextNativeAdmission, nativeTurns, protocolFailure, stopped := {}, 0, map[], None, false;
      submitted, attempts, settlement := {}, multiset{}, map[];
      new;
      FreshInv();
    }

    ghost function Now(): Records
      reads this
    {
      Records(nativeTurns, inFlightNativeAdmissions, nextNativeAdmission, protocolFailure, stopped,
              submitted, attempts, settlement)
    }

    predicate Live()
      reads this, collector
    {
      subscribed && !collector.closed
    }

    /** Decisions run one at a time, and an admission is pending exactly until it is decided. */
    ghost predicate Admitting()
      reads this
    {
      && pendingAdmissions == (set c | c in queue) + CallsOf(active)
      && outcomes.Keys !! pendingAdmissions
      && (forall i, j | 0 <= i < j < |queue| :: queue[i] != queue[j])
      && (forall c | c in queue :: c !in CallsOf(active))
      && inFlightNativeAdmissions == (if active.Starting? then {active.id} else {})
    }

    /** A turn known to have ended keeps its items only as long as its record. */
    ghost predicate Collecting()
      reads this, collector
    {
      && collector.Valid()
      && (forall t | t in collector.itemsByTurn && t in collector.terminalTurnIds :: t in nativeTurns)
      && (!Live() ==> collector.itemsByTurn == map[] && collector.terminalTurnIds == [])
      && (stopped || protocolFailure.Some? ==> !Live())
      && (stopped ==> !subscribed || collector.closed)
    }

    ghost predicate Reporting()
      reads this, sink, reasoning, collector
    {
      && reasoning.sink == sink && reasoning.Valid()
      && (!Live() ==> Open(sink.log) == {})
    }

    ghost predicate Valid()
      reads this, sink, reasoning, collector
    {
      Inv(Now()) && Admitting() && Collecting() && Reporting()
    }

    // ---- Admission ----

    method SubmitInput(call: Call)
      requires Valid() && call !in pendingAdmissions && call !in outcomes
      modifies this`queue, this`pendingAdmissions
      ensures Valid() && Now() == old(Now()) && sink.log == old(sink.log)
      ensures queue == old(queue) + [call] && call in pendingAdmissions
    {
      hide Inv, Shaped, Conserved, Balanced, HoldsExactly, NoEmptyEntries;
      queue := queue + [call];
      pendingAdmissions := pendingAdmissions + {call};
    }

    method Decide(call: Call, outcome: Admission)
      modifies this`pendingAdmissions, this`outcomes, this`active
      ensures pendingAdmissions == old(pendingAdmissions) - {call}
      ensures outcomes == old(outcomes)[call := outcome] && active == Idle
    {
      pendingAdmissions := pendingAdmissions - {call};
      outcomes := outcomes[call := outcome];
      active := Idle;
    }

    predicate Refusing()
      reads this
    {
      stopped || protocolFailure.Some?
    }

    function Refusal(): Admission
      requires Refusing()
      reads this
    {
      if stopped then Stopped else Refused(protocolFailure.value)
    }

    /** Take the next decision off the queue; it asks for its effort unless submitting is refused. */
    method NextDecision()
      requires Valid() && active == Idle && queue != []
      modifies this`queue, this`pendingAdmissions, this`outcomes, this`active
      ensures Valid() && Now() == old(Now()) && sink.log == old(sink.log)
      ensures queue == old(queue)[1..]
      ensures var call := old(queue)[0];
              if stopped then active == Idle && outcomes == old(outcomes)[call := Stopped]
              else if protocolFailure.Some? then active == Idle && outcomes == old(outcomes)[call := Refused(protocolFailure.value)]
              else active == Asking(call) && outcomes == old(outcomes)
    {
      hide Inv, Shaped, Conserved, Balanced, HoldsExactly, NoEmptyEntries;
      var call := queue[0];
      assert queue == [call] + queue[1..];
      queue := queue[1..];
      if Refusing() {
        Decide(call, Refusal());
      } else {
        active := Asking(call);
      }
    }

    /** The effort arrived, or failed; `turn/start` is sent unless submitting is refused by now. */
    method EffortAnswered(effort: Result<(), string>)
      requires Valid() && active.Asking?
      modifies this`pendingAdmissions, this`outcomes, this`active, this`subscribed,
               this`inFlightNativeAdmissions, this`nextNativeAdmission
      ensures Valid() && sink.log == old(sink.log)
      ensures var call := old(active).call;
              if effort.Failure? then Now() == old(Now()) && outcomes == old(outcomes)[call := Refused(effort.error)]
              else if stopped then Now() == old(Now()) && outcomes == old(outcomes)[call := Stopped]
              else if protocolFailure.Some? then Now() == old(Now()) && outcomes == old(outcomes)[call := Refused(protocolFailure.value)]
              else
                && Now() == Begin(old(Now())) && active == Starting(call, Id(old(nextNativeAdmission)))
                && outcomes == old(outcomes) && subscribed
    {
      hide Inv, Shaped, Conserved, Balanced, HoldsExactly, NoEmptyEntries;
      var call := active.call;
      if effort.Failure? {
        Decide(call, Refused(effort.error));
      } else if Refusing() {
        Decide(call, Refusal());
      } else {
        BeginInv(Now());
        subscribed := true;
        var id := Id(nextNativeAdmission);
        nextNativeAdmission := nextNativeAdmission + 1;
        inFlightNativeAdmissions := inFlightNativeAdmissions + {id};
        active := Starting(call, id);
        assert Now() == Begin(old(Now()));
      }
    }

    // ---- Records ----

    method Settle(id: Id, s: Settlement)
      modifies this`attempts, this`settlement
      ensures Now() == TurnRecords.Settle(old(Now()), multiset{id}, s)
    {
      attempts := attempts + multiset{id};
      settlement := map i | i in settlement.Keys + {id} :: if i in settlement then settlement[i] else s;
    }

    method SettleMembers(members: seq<Id>, s: Settlement)
      modifies this`attempts, this`settlement
      ensures Now() == TurnRecords.Settle(old(Now()), multiset(members), s)
    {
      var i := 0;
      SettleNone(Now(), s);
      while i < |members|
        invariant 0 <= i <= |members|
        invariant Now() == TurnRecords.Settle(old(Now()), multiset(members[..i]), s)
      {
        Settle(members[i], s);
        SettleTwice(old(Now()), multiset(members[..i]), multiset{members[i]}, s);
        assert members[..i + 1] == members[..i] + [members[i]];
        i := i + 1;
      }
      assert members[..i] == members;
    }

    method BindSubmission(turn: string, id: Id)
      modifies this`attempts, this`settlement, this`nativeTurns
      ensures Now() == Bind(old(Now()), turn, id) && old(nativeTurns.Keys) <= nativeTurns.Keys
    {
      var record := RecordOf(nativeTurns, turn);
      if record.completion.Some? {
        Settle(id, SettledWith(record.completion.value));
      } else if stopped {
        Settle(id, SettledStopped);
      } else if protocolFailure.Some? {
        Settle(id, SettledFailed(protocolFailure.value));
      } else {
        nativeTurns := nativeTurns[turn := record.(members := record.members + [id])];
      }
    }

    /** Let every record stop waiting for `id`; a finished one nobody waits for goes, and its items with it. */
    method ReleaseCompletedRecords(id: Id)
      requires collector.Valid()
      modifies this`nativeTurns, collector`itemsByTurn
      ensures collector.Valid()
      ensures nativeTurns == Release(old(Now()), id).turns
      ensures Released(old(collector.itemsByTurn), collector.itemsByTurn, old(nativeTurns), nativeTurns)
    {
      var remaining := nativeTurns.Keys;
      while remaining != {}
        invariant remaining <= old(nativeTurns.Keys) && collector.Valid()
        invariant forall t :: t in nativeTurns <==>
                    t in old(nativeTurns) && (t in remaining || !Ready(Without(old(nativeTurns)[t], id)))
        invariant forall t | t in nativeTurns ::
                    nativeTurns[t] == if t in remaining then old(nativeTurns)[t] else Without(old(nativeTurns)[t], id)
        invariant Released(old(collector.itemsByTurn), collector.itemsByTurn, old(nativeTurns), nativeTurns)
        decreases remaining
      {
        var turn :| turn in remaining;
        remaining := remaining - {turn};
        var record := Without(nativeTurns[turn], id);
        if Ready(record) {
          nativeTurns := nativeTurns - {turn};
          collector.ReleaseTurn(turn);
        } else {
          nativeTurns := nativeTurns[turn := record];
        }
      }
    }

    method AbandonRecord(turn: string, s: Settlement)
      requires collector.Valid() && turn in nativeTurns
      modifies this`attempts, this`settlement, this`nativeTurns, collector`itemsByTurn
      ensures collector.Valid() && collector.itemsByTurn == old(collector.itemsByTurn) - {turn}
      ensures Now() == TurnRecords.Settle(old(Now()), multiset(old(nativeTurns)[turn].members), s).(turns := old(nativeTurns) - {turn})
    {
      SettleMembers(nativeTurns[turn].members, s);
      nativeTurns := nativeTurns - {turn};
      collector.ReleaseTurn(turn);
    }

    /** Settle the members of every unfinished record and drop those records. */
    method AbandonUnfinished(s: Settlement)
      requires collector.Valid()
      modifies this`attempts, this`settlement, this`nativeTurns, collector`itemsByTurn
      ensures collector.Valid() && Now() == Abandon(old(Now()), s)
      ensures Released(old(collector.itemsByTurn), collector.itemsByTurn, old(nativeTurns), nativeTurns)
    {
      var remaining := nativeTurns.Keys;
      ghost var settled: multiset<Id> := multiset{};
      SettleNone(Now(), s);
      while remaining != {}
        invariant collector.Valid() && Abandoning(old(Now()), Now(), remaining, settled, s)
        invariant Released(old(collector.itemsByTurn), collector.itemsByTurn, old(nativeTurns), nativeTurns)
        decreases remaining
      {
        var turn :| turn in remaining;
        if nativeTurns[turn].completion.None? {
          AbandoningStep(old(Now()), Now(), remaining, settled, s, turn);
          settled := settled + multiset(nativeTurns[turn].members);
          AbandonRecord(turn, s);
        }
        remaining := remaining - {turn};
      }
      AbandoningDone(old(Now()), Now(), settled, s);
    }

    // ---- The reply to `turn/start` ----

    /** The reply names a turn: the submission joins it, or is answered by what is already known of it. */
    method StartAnswered(turn: string)
      requires Valid() && active.Starting?
      modifies this`attempts, this`settlement, this`nativeTurns, this`submitted, this`inFlightNativeAdmissions,
               this`pendingAdmissions, this`outcomes, this`active, collector`itemsByTurn
      ensures Valid() && sink.log == old(sink.log)
      ensures Now() == Reply(old(Now()), old(active).id, turn)
      ensures active == Idle && outcomes == old(outcomes)[old(active).call := Submitted(old(active).id)]
    {
      hide Inv, Shaped, Conserved, Reply;
      var call, id := active.call, active.id;
      ReplyInv(Now(), id, turn);
      JoinTurn(turn, id);
      Decide(call, Submitted(id));
    }

    method JoinTurn(turn: string, id: Id)
      requires Collecting() && id in inFlightNativeAdmissions
      modifies this`attempts, this`settlement, this`nativeTurns, this`submitted, this`inFlightNativeAdmissions,
               collector`itemsByTurn
      ensures Collecting() && Now() == Reply(old(Now()), id, turn)
      ensures inFlightNativeAdmissions == old(inFlightNativeAdmissions) - {id}
    {
      hide Bind, Release, Reply;
      ReplyParts(Now(), id, turn);
      BindSubmission(turn, id);
      ReleaseCompletedRecords(id);
      inFlightNativeAdmissions := inFlightNativeAdmissions - {id};
      submitted := submitted + {id};
    }

    /** The request failed: codex may or may not have taken the input. */
    method StartRejected(error: string)
      requires Valid() && active.Starting?
      modifies this`nativeTurns, this`inFlightNativeAdmissions, this`pendingAdmissions, this`outcomes, this`active,
               collector`itemsByTurn
      ensures Valid() && sink.log == old(sink.log)
      ensures Now() == Release(old(Now()), old(active).id)
      ensures active == Idle && outcomes == old(outcomes)[old(active).call := Ambiguous(error)]
    {
      hide Inv, Shaped, Conserved, Balanced, HoldsExactly, NoEmptyEntries;
      var call, id := active.call, active.id;
      ReleaseInv(Now(), id);
      ReleaseCompletedRecords(id);
      inFlightNativeAdmissions := inFlightNativeAdmissions - {id};
      Decide(call, Ambiguous(error));
      assert Now() == Release(old(Now()), id);
    }

    // ---- Notifications ----

    method EmitClosed(activity: Activity)
      requires Reporting() && MayFollow(sink.log, activity) && !activity.Reasoning?
      modifies sink
      ensures Reporting() && sink.log == old(sink.log) + [activity] && Open(sink.log) == old(Open(sink.log))
    {
      Emitted(sink.log, activity);
      sink.Emit(activity);
    }

    /** Put a turn's end on the activity stream; its parts are closed first. */
    method ReportEnd(turn: string, terminal: Terminal)
      requires Reporting()
      modifies reasoning, sink
      ensures Reporting() && Open(sink.log) == WithoutTurn(old(Open(sink.log)), turn)
      ensures EndsTurn(old(sink.log), sink.log, turn, terminal)
      ensures forall i | |old(sink.log)| <= i < |sink.log| :: !sink.log[i].TurnResult?
    {
      hide MayFollow, Balanced, Open, EndsTurn;
      var interrupted := terminal.Collected? && terminal.interrupted;
      reasoning.CloseTurn(turn);
      ghost var closed := sink.log;
      if interrupted {
        InterruptMayFollow(sink.log, turn);
        EmitClosed(TurnInterrupted(turn));
      }
      var end := if terminal.Broken? then EndedFailed else if interrupted then EndedInterrupted else EndedCompleted;
      EndMayFollow(sink.log, turn, end);
      EmitClosed(TurnEnded(Some(turn), end));
      EndsTurnHere(old(sink.log), closed, old(Open(sink.log)), turn, terminal);
      assert sink.log == closed + EndOf(turn, terminal);
    }

    /** Settle the turn's members and keep its completion for the admissions still in flight. */
    method FileCompletion(turn: string, completion: Completion)
      requires collector.Valid() && RecordOf(nativeTurns, turn).completion.None?
      modifies this`attempts, this`settlement, this`nativeTurns, collector`itemsByTurn
      ensures collector.Valid() && Now() == TurnRecords.Terminal(old(Now()), turn, completion)
      ensures collector.itemsByTurn == if turn in nativeTurns then old(collector.itemsByTurn) else old(collector.itemsByTurn) - {turn}
    {
      SettleMembers(RecordOf(nativeTurns, turn).members, SettledWith(completion));
      if inFlightNativeAdmissions == {} {
        nativeTurns := nativeTurns - {turn};
        collector.ReleaseTurn(turn);
      } else {
        nativeTurns := nativeTurns[turn := Record([], Some(completion), Some(inFlightNativeAdmissions))];
      }
    }

    /** One turn's terminal, the first time the collector reports it. */
    method ObserveTerminal(turn: string, terminal: Terminal)
      requires Inv(Now()) && Admitting() && collector.Valid() && Reporting()
      modifies this`attempts, this`settlement, this`nativeTurns, collector`itemsByTurn, reasoning, sink
      ensures Inv(Now()) && Admitting() && collector.Valid() && Reporting()
      ensures Now() == TurnRecords.Terminal(old(Now()), turn, CompletionFromTerminal(terminal, codec))
      ensures turn !in nativeTurns ==> collector.itemsByTurn == old(collector.itemsByTurn) - {turn}
      ensures turn in nativeTurns ==> collector.itemsByTurn == old(collector.itemsByTurn)
      ensures Open(sink.log) == WithoutTurn(old(Open(sink.log)), turn)
      ensures EndsTurn(old(sink.log), sink.log, turn, terminal)
      ensures PublishesResult(old(sink.log), sink.log, CompletionFromTerminal(terminal, codec)) <==>
              RecordOf(old(nativeTurns), turn).completion.None? && !(terminal.Collected? && terminal.interrupted)
      ensures AnswersMembers(old(Now()), Now(), turn, terminal, codec)
    {
      hide Inv, Shaped, Conserved, MayFollow, Balanced, HoldsExactly, NoEmptyEntries, CompletionFromTerminal, AnswersMembers, EndsTurn;
      var completion := CompletionFromTerminal(terminal, codec);
      TerminalAnswers(Now(), turn, terminal, codec);
      TerminalInv(Now(), turn, completion);
      ReportEnd(turn, terminal);
      if RecordOf(nativeTurns, turn).completion.None? {
        if !(terminal.Collected? && terminal.interrupted) {
          ResultMayFollow(sink.log, completion);
          EndsTurnStays(old(sink.log), sink.log, turn, terminal, completion);
          EmitClosed(TurnResult(completion));
        }
        FileCompletion(turn, completion);
      }
    }

    /** A failure no turn owns: whatever was running ends, and every unfinished record fails. */
    method FailProtocol(error: string)
      requires Inv(Now()) && Admitting() && collector.Valid() && Reporting()
      modifies this`protocolFailure, this`attempts, this`settlement, this`nativeTurns, collector`itemsByTurn, reasoning, sink
      ensures Inv(Now()) && Admitting() && collector.Valid() && Reporting()
      ensures Now() == Fail(old(Now()), error)
      ensures AbandonsWith(old(Now()), Now(), SettledFailed(if old(protocolFailure).Some? then old(protocolFailure).value else error))
      ensures Open(sink.log) == {}
      ensures if old(protocolFailure).None? then ClosesAndEnds(old(sink.log), sink.log, old(Open(sink.log)), EndedFailed)
              else OnlyCloses(old(sink.log), sink.log, old(Open(sink.log)))
    {
      hide Inv, Shaped, Conserved, MayFollow, Balanced, Open, Abandon, AbandonsWith;
      reasoning.Close();
      ghost var closed := sink.log;
      var first := protocolFailure.None?;
      var failure := if protocolFailure.Some? then protocolFailure.value else error;
      FailInv(Now(), error);
      FailAbandons(Now(), error);
      protocolFailure := Some(failure);
      if first {
        AllEndMayFollow(sink.log, EndedFailed);
        EmitClosed(TurnEnded(None, EndedFailed));
        assert sink.log == closed + [TurnEnded(None, EndedFailed)];
      }
      AbandonUnfinished(SettledFailed(failure));
    }

    method OnReasoningDelta(turn: string, id: string, carrier: Carrier, index: Index, text: string)
      requires Valid()
      modifies reasoning, sink
      ensures Valid() && OnlyReasoning(old(sink.log), sink.log)
      ensures var known := turn in old(reasoning.turns) && id in old(reasoning.turns)[turn];
              sink.log == old(sink.log) +
                if !(subscribed && !collector.closed) || turn in collector.terminalTurnIds then []
                else if text == "" || (known && old(reasoning.turns)[turn][id].carrier != carrier) then []
                else [Reasoning(Part(turn, id, index), text, Streaming)]
    {
      hide Inv, Balanced, Open;
      if !Live() || turn in collector.terminalTurnIds {
        return;
      }
      reasoning.Delta(turn, id, carrier, index, text);
    }

    method OnItemCompleted(turn: string, item: ThreadItem)
      requires Valid()
      modifies collector`itemsByTurn, reasoning, sink
      ensures Valid() && OnlyReasoning(old(sink.log), sink.log)
      ensures !(subscribed && !collector.closed) || turn in collector.terminalTurnIds ==>
                sink.log == old(sink.log) && collector.itemsByTurn == old(collector.itemsByTurn)
      ensures subscribed && !collector.closed && turn !in collector.terminalTurnIds ==>
                var items := old(collector.itemsByTurn);
                collector.itemsByTurn == items[turn := (if turn in items then items[turn] else []) + [item]]
      ensures subscribed && !collector.closed && turn !in collector.terminalTurnIds && !item.ReasoningItem? ==> sink.log == old(sink.log)
      ensures subscribed && !collector.closed && turn !in collector.terminalTurnIds && item.ReasoningItem? ==>
                var carried := Carried(old(reasoning.turns), turn, item.id, item.summary, item.content);
                && Open(sink.log) == WithoutItem(old(Open(sink.log)), turn, item.id)
                && PublishesSnapshot(old(sink.log), sink.log, turn, item.id, carried, old(PartsOf(reasoning.turns, turn, item.id)))
    {
      hide Inv, Balanced, Open;
      if !Live() || turn in collector.terminalTurnIds {
        return;
      }
      collector.AddItem(turn, item);
      if item.ReasoningItem? {
        reasoning.Complete(turn, item.id, item.summary, item.content);
      }
    }

    /** `turn/completed`, or a fatal error scoped to a turn. A terminal already reported changes nothing. */
    method OnTerminal(turn: string, terminal: Terminal)
      requires Valid() && subscribed && !collector.closed
      modifies this`attempts, this`settlement, this`nativeTurns, collector`itemsByTurn, collector`terminalTurnIds, reasoning, sink
      ensures Valid()
      ensures turn in old(collector.terminalTurnIds) ==> Now() == old(Now()) && sink.log == old(sink.log)
      ensures turn !in old(collector.terminalTurnIds) ==>
                && Now() == TurnRecords.Terminal(old(Now()), turn, CompletionFromTerminal(terminal, codec))
                && AnswersMembers(old(Now()), Now(), turn, terminal, codec)
                && EndsTurn(old(sink.log), sink.log, turn, terminal)
    {
      hide Inv, Balanced, Open, AnswersMembers;
      var isNew := collector.RememberTerminal(turn);
      if isNew {
        ObserveTerminal(turn, terminal);
      }
    }

    method OnTurnCompleted(turn: string, error: Option<string>, items: seq<ThreadItem>, interrupted: bool)
      requires Valid()
      modifies this`attempts, this`settlement, this`nativeTurns, collector`itemsByTurn, collector`terminalTurnIds, reasoning, sink
      ensures Valid()
      ensures old(subscribed && !collector.closed) && turn !in old(collector.terminalTurnIds) ==>
                var buffers := old(collector.itemsByTurn);
                var terminal := if error.Some? then Broken(if error.value == "" then "codex turn failed" else error.value)
                                else Collected(if turn in buffers then buffers[turn] else items, interrupted);
                && Now() == TurnRecords.Terminal(old(Now()), turn, CompletionFromTerminal(terminal, codec))
                && AnswersMembers(old(Now()), Now(), turn, terminal, codec)
                && EndsTurn(old(sink.log), sink.log, turn, terminal)
      ensures !old(subscribed && !collector.closed) || turn in old(collector.terminalTurnIds) ==>
                Now() == old(Now()) && sink.log == old(sink.log)
    {
      hide AnswersMembers;
      if !Live() {
        return;
      }
      if error.Some? {
        OnTerminal(turn, Broken(if error.value == "" then "codex turn failed" else error.value));
        return;
      }
      var buffered := if turn in collector.itemsByTurn then collector.itemsByTurn[turn] else items;
      OnTerminal(turn, Collected(buffered, interrupted));
    }

    /** An `error` notification: only one codex will not retry ends anything. */
    method OnError(turn: Option<string>, willRetry: bool, message: string)
      requires Valid()
      modifies this`protocolFailure, this`attempts, this`settlement, this`nativeTurns, collector, reasoning, sink
      ensures Valid()
      ensures !old(subscribed && !collector.closed) || willRetry ==> Now() == old(Now()) && sink.log == old(sink.log)
      ensures old(subscribed && !collector.closed) && !willRetry && turn.None? ==>
                Now() == Fail(old(Now()), message) && !(subscribed && !collector.closed)
      ensures old(subscribed && !collector.closed) && !willRetry && turn.Some? && turn.value !in old(collector.terminalTurnIds) ==>
                && Now() == TurnRecords.Terminal(old(Now()), turn.value, Unanswered(message))
                && EndsTurn(old(sink.log), sink.log, turn.value, Broken(message))
      ensures old(subscribed && !collector.closed) && !willRetry && turn.Some? && turn.value in old(collector.terminalTurnIds) ==>
                Now() == old(Now()) && sink.log == old(sink.log)
    {
      hide Inv, Balanced, Open;
      if !Live() || willRetry {
        return;
      }
      if turn.Some? {
        OnTerminal(turn.value, Broken(message));
      } else {
        FailProtocol(message);
        collector.Dispose();
      }
    }

    // ---- Stop ----

    /** Refuse input, stop listening and close every part; what is pending is still waited for. */
    method Stop()
      requires Valid()
      modifies this`stopped, collector, reasoning, sink
      ensures Valid() && Now() == RequestStop(old(Now())) && Open(sink.log) == {} && !(subscribed && !collector.closed)
    {
      hide Inv, Shaped, Conserved, Balanced, Open;
      RequestInv(Now());
      stopped := true;
      if subscribed {
        collector.Dispose();
      }
      reasoning.Close();
    }

    /** The rest of stop, once no admission is pending: nothing stays unsettled and no record stays. */
    method FinishStop()
      requires Valid() && stopped && pendingAdmissions == {}
      modifies this`attempts, this`settlement, this`nativeTurns, collector`itemsByTurn, reasoning, sink
      ensures Valid() && Now() == TurnRecords.FinishStop(old(Now()))
      ensures nativeTurns == map[] && forall id | id in submitted :: id in settlement && attempts[id] == 1
      ensures AbandonsWith(old(Now()), Now(), SettledStopped)
      ensures sink.log == old(sink.log) + [TurnEnded(None, EndedInterrupted)]
    {
      hide Shaped, Conserved, MayFollow, Balanced, Open, Abandon, AbandonsWith;
      NothingInFlight();
      AllEndMayFollow(sink.log, EndedInterrupted);
      EmitClosed(TurnEnded(None, EndedInterrupted));
      StopInv(Now());
      AbandonAbandons(Now(), SettledStopped);
      AbandonUnfinished(SettledStopped);
    }

    lemma NothingInFlight()
      requires Admitting() && pendingAdmissions == {}
      ensures inFlightNativeAdmissions == {}
    {
      assert CallsOf(active) <= pendingAdmissions;
    }
  }

  /** Every member of a turn that ends for the first time is settled with what the turn's terminal answers. */
  ghost predicate AnswersMembers(before: Records, after: Records, turn: string, terminal: Terminal, codec: Option<Codec>) {
    RecordOf(before.turns, turn).completion.None? ==>
      exists completion :: Answers(terminal, codec, completion) &&
        forall id | id in RecordOf(before.turns, turn).members ::
          id !in before.settlement && id in after.settlement && after.settlement[id] == SettledWith(completion)
  }

  lemma TerminalAnswers(r: Records, turn: string, terminal: Terminal, codec: Option<Codec>)
    requires Inv(r)
    ensures AnswersMembers(r, TurnRecords.Terminal(r, turn, CompletionFromTerminal(terminal, codec)), turn, terminal, codec)
  {
    var completion := CompletionFromTerminal(terminal, codec);
    CompletionAnswers(terminal, codec, completion);
    var record := RecordOf(r.turns, turn);
    forall id | record.completion.None? && id in record.members ensures id !in r.settlement {
      MemberUnsettled(r, turn, id);
    }
    hide Inv, CompletionFromTerminal, Answers;
  }

  lemma MemberUnsettled(r: Records, turn: string, id: Id)
    requires Inv(r) && turn in r.turns && id in r.turns[turn].members
    ensures id !in r.settlement
  {
    MembersSplit(r.turns, turn);
    assert Members(r.turns)[id] >= 1;
    assert r.attempts[id] == 0;
  }

  /** Every member of a record without completion is settled with `s`, and whoever was settled keeps that. */
  ghost predicate AbandonsWith(before: Records, after: Records, s: Settlement) {
    && (forall t, id | t in before.turns && before.turns[t].completion.None? && id in before.turns[t].members ::
          id !in before.settlement && id in after.settlement && after.settlement[id] == s)
    && (forall id | id in before.settlement :: id in after.settlement && after.settlement[id] == before.settlement[id])
  }

  lemma AbandonSettles(r: Records, s: Settlement, t: string, id: Id)
    requires Inv(r) && t in r.turns && r.turns[t].completion.None? && id in r.turns[t].members
    ensures id !in r.settlement && id in Abandon(r, s).settlement && Abandon(r, s).settlement[id] == s
  {
    MemberUnsettled(r, t, id);
    MembersSplit(Unfinished(r.turns), t);
    assert id in Members(Unfinished(r.turns));
  }

  lemma AbandonAbandons(r: Records, s: Settlement)
    requires Inv(r)
    ensures AbandonsWith(r, Abandon(r, s), s)
  {
    hide Inv, Unfinished, Finished, Members;
    forall t, id | t in r.turns && r.turns[t].completion.None? && id in r.turns[t].members
      ensures id !in r.settlement && id in Abandon(r, s).settlement && Abandon(r, s).settlement[id] == s
    {
      AbandonSettles(r, s, t, id);
    }
  }

  lemma FailAbandons(r: Records, error: string)
    requires Inv(r)
    ensures AbandonsWith(r, Fail(r, error), SettledFailed(if r.failure.Some? then r.failure.value else error))
  {
    AbandonAbandons(r, SettledFailed(if r.failure.Some? then r.failure.value else error));
    hide Inv, Unfinished, Finished, Members;
  }

  lemma FailInv(r: Records, error: string)
    requires Inv(r)
    ensures Inv(Fail(r, error))
  {
    var first := if r.failure.Some? then r.failure.value else error;
    AbandonInv(r.(failure := Some(first)), SettledFailed(first));
  }

  lemma RequestInv(r: Records)
    requires Inv(r)
    ensures Inv(RequestStop(r))
  {
  }

  lemma StopInv(r: Records)
    requires Inv(r) && r.inFlight == {}
    ensures Inv(FinishStop(r)) && FinishStop(r).turns == map[]
    ensures forall id | id in r.submitted :: id in FinishStop(r).settlement && FinishStop(r).attempts[id] == 1
  {
    AbandonInv(r, SettledStopped);
    forall t | t in r.turns ensures r.turns[t].completion.None? {
      assert RecordOk(r.turns[t], r.inFlight);
    }
    assert FinishStop(r).turns == map[];
    assert Accounted(FinishStop(r).attempts, multiset{}, r.submitted);
  }

  lemma AllEndMayFollow(log: seq<Activity>, end: EndStatus)
    requires Open(log) == {}
    ensures MayFollow(log, TurnEnded(None, end))
  {
  }

  lemma ReplyParts(r: Records, id: Id, turn: string)
    ensures Reply(r, id, turn).inFlight == r.inFlight - {id}
    ensures Reply(r, id, turn) ==
            Bind(r, turn, id).(inFlight := r.inFlight - {id}, turns := Release(Bind(r, turn, id), id).turns,
                               submitted := r.submitted + {id})
  {
  }

  lemma InterruptMayFollow(log: seq<Activity>, turn: string)
    ensures MayFollow(log, TurnInterrupted(turn))
  {
  }

  lemma EndMayFollow(log: seq<Activity>, turn: string, end: EndStatus)
    requires forall p | p in Open(log) :: p.turn != turn
    ensures MayFollow(log, TurnEnded(Some(turn), end))
  {
  }

  lemma ResultMayFollow(log: seq<Activity>, completion: Completion)
    ensures MayFollow(log, TurnResult(completion))
  {
  }

  /** `later` continues `earlier` with one native result, `completion`. */
  ghost predicate PublishesResult(earlier: seq<Activity>, later: seq<Activity>, completion: Completion) {
    exists i | |earlier| <= i < |later| :: later[i] == TurnResult(completion)
  }

  /**
   * `later` continues `earlier` and ends `turn` exactly once, after its last open part was completed:
   * failed when the turn broke, interrupted when it was interrupted, and completed otherwise.
   */
  ghost predicate EndsTurn(earlier: seq<Activity>, later: seq<Activity>, turn: string, terminal: Terminal) {
    && earlier <= later
    && (exists i | |earlier| <= i < |later| :: EndAt(later, i, turn, terminal) && OnlyEnd(earlier, later, i))
    && ((exists i | |earlier| <= i < |later| :: later[i] == TurnInterrupted(turn)) <==>
          terminal.Collected? && terminal.interrupted)
  }

  /** What ends a turn on the stream, once its parts are closed. */
  function EndOf(turn: string, terminal: Terminal): seq<Activity> {
    if terminal.Broken? then [TurnEnded(Some(turn), EndedFailed)]
    else if terminal.interrupted then [TurnInterrupted(turn), TurnEnded(Some(turn), EndedInterrupted)]
    else [TurnEnded(Some(turn), EndedCompleted)]
  }

  lemma EndsTurnHere(earlier: seq<Activity>, closed: seq<Activity>, parts: set<Part>, turn: string, terminal: Terminal)
    requires OnlyCloses(earlier, closed, parts)
    ensures EndsTurn(earlier, closed + EndOf(turn, terminal), turn, terminal)
  {
    var later := closed + EndOf(turn, terminal);
    assert EndAt(later, |later| - 1, turn, terminal) && OnlyEnd(earlier, later, |later| - 1);
    if terminal.Collected? && terminal.interrupted {
      assert later[|closed|] == TurnInterrupted(turn);
    }
  }

  lemma EndsTurnStays(earlier: seq<Activity>, later: seq<Activity>, turn: string, terminal: Terminal, completion: Completion)
    requires EndsTurn(earlier, later, turn, terminal)
    ensures EndsTurn(earlier, later + [TurnResult(completion)], turn, terminal)
  {
    var longer := later + [TurnResult(completion)];
    var i :| |earlier| <= i < |later| && EndAt(later, i, turn, terminal) && OnlyEnd(earlier, later, i);
    assert EndAt(longer, i, turn, terminal) && OnlyEnd(earlier, longer, i);
    if terminal.Collected? && terminal.interrupted {
      var k :| |earlier| <= k < |later| && later[k] == TurnInterrupted(turn);
      assert longer[k] == TurnInterrupted(turn);
    }
  }

  predicate EndAt(log: seq<Activity>, i: nat, turn: string, terminal: Terminal)
    requires i < |log|
  {
    && log[i].TurnEnded? && log[i].scope == Some(turn)
    && (log[i].end == EndedFailed <==> terminal.Broken?)
    && (log[i].end == EndedInterrupted <==> terminal.Collected? && terminal.interrupted)
  }

  predicate OnlyEnd(earlier: seq<Activity>, later: seq<Activity>, i: nat) {
    forall j | |earlier| <= j < |later| && later[j].TurnEnded? :: j == i
  }

  /** `later` continues `earlier` with bare completions of `parts` and then one end of whatever was running. */
  ghost predicate ClosesAndEnds(earlier: seq<Activity>, later: seq<Activity>, parts: set<Part>, end: EndStatus) {
    exists closed :: OnlyCloses(earlier, closed, parts) && later == closed + [TurnEnded(None, end)]
  }

  /** Of the unfinished records all but those in `remaining` are gone and their members settled. */
  ghost predicate Abandoning(before: Records, now: Records, remaining: set<string>, settled: multiset<Id>, s: Settlement) {
    && remaining <= before.turns.Keys
    && (forall t :: t in now.turns <==> t in before.turns && (t in remaining || before.turns[t].completion.Some?))
    && (forall t | t in now.turns :: now.turns[t] == before.turns[t])
    && Members(Unfinished(now.turns)) + settled == Members(Unfinished(before.turns))
    && now == TurnRecords.Settle(before, settled, s).(turns := now.turns)
  }

  lemma AbandoningStep(before: Records, now: Records, remaining: set<string>, settled: multiset<Id>, s: Settlement, t: string)
    requires Abandoning(before, now, remaining, settled, s)
    requires t in remaining && now.turns[t].completion.None?
    ensures var members := multiset(now.turns[t].members);
            Abandoning(before, TurnRecords.Settle(now, members, s).(turns := now.turns - {t}), remaining - {t}, settled + members, s)
  {
    AbandonOne(now.turns, t);
    SettleOver(before, settled, multiset(now.turns[t].members), s, now.turns, now.turns - {t});
  }

  lemma AbandoningDone(before: Records, now: Records, settled: multiset<Id>, s: Settlement)
    requires Abandoning(before, now, {}, settled, s)
    ensures now == Abandon(before, s)
  {
    assert Unfinished(now.turns) == map[];
    assert now.turns == Finished(before.turns);
  }

  lemma SettleNone(r: Records, s: Settlement)
    ensures r.settlement.Keys == (set id | id in r.settlement) && TurnRecords.Settle(r, multiset{}, s) == r
  {
    assert TurnRecords.Settle(r, multiset{}, s).settlement == r.settlement;
  }

  lemma SettleTwice(r: Records, a: multiset<Id>, b: multiset<Id>, s: Settlement)
    ensures TurnRecords.Settle(TurnRecords.Settle(r, a, s), b, s) == TurnRecords.Settle(r, a + b, s)
  {
  }

  lemma SettleOver(r: Records, a: multiset<Id>, b: multiset<Id>, s: Settlement, turns: Turns, turns': Turns)
    ensures TurnRecords.Settle(TurnRecords.Settle(r, a, s).(turns := turns), b, s).(turns := turns') ==
            TurnRecords.Settle(r, a + b, s).(turns := turns')
  {
    SettleTwice(r, a, b, s);
  }

  lemma AbandonOne(turns: Turns, t: string)
    requires t in turns && turns[t].completion.None?
    ensures Members(Unfinished(turns)) == Members(Unfinished(turns - {t})) + multiset(turns[t].members)
  {
    MembersSplit(Unfinished(turns), t);
    assert Unfinished(turns) - {t} == Unfinished(turns - {t});
  }
}
