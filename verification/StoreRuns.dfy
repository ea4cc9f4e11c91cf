/** What every run of the transactional store keeps, and what orderly callers get on top of it. */
module StoreRuns {
  import opened Wrappers
  import opened StoreSteps

  // ---- Always: one operation at a time, and the file holds the last commit ----

  /** An operation has begun only if every earlier one has settled. */
  ghost predicate Serial(ops: seq<Op>) {
    forall i, j | 0 <= i < j < |ops| :: ops[j].phase == Waiting || ops[i].phase.Done?
  }

  ghost predicate Linked(s: State) {
    && s.tail == (if s.ops == [] then None else Some(|s.ops| - 1))
    && forall i | 0 <= i < |s.ops| :: s.ops[i].prev == if i == 0 then None else Some(i - 1)
  }

  predicate IsCommitted(phase: Phase) {
    phase == AfterCommit || phase == Done(Committed) || phase == Done(CommittedButFailed)
  }

  function LastFile(s: State): File {
    if s.history == [] then s.first else s.history[|s.history| - 1].file
  }

  predicate Logged(s: State, i: nat) {
    exists k | 0 <= k < |s.history| :: s.history[k].op == i
  }

  /** The history lists exactly the operations that committed, in the order they were enqueued. */
  ghost predicate HistoryOk(s: State) {
    && (forall k | 0 <= k < |s.history| :: s.history[k].op < |s.ops| && IsCommitted(s.ops[s.history[k].op].phase))
    && (forall i | 0 <= i < |s.ops| && IsCommitted(s.ops[i].phase) :: Logged(s, i))
    && (forall j, k | 0 <= j < k < |s.history| :: s.history[j].op < s.history[k].op)
  }

  /** Each kind of operation goes through its own phases. */
  predicate KindOk(op: Op) {
    match op.phase
    case AwaitingLoad => !op.kind.Create?
    case Changing(_) => op.kind.Update?
    case Writing(saw, next) => Carries(op.kind, saw, next) && !op.kind.Remove?
    case Unlinking(next) => op.kind == Remove(next)
    case Swapping(saw, next) => Carries(op.kind, saw, next)
    case AfterCommit => !op.kind.Remove?
    case _ => true
  }

  predicate Carries(kind: Kind, saw: Option<Value>, next: Value) {
    match kind
    case Update => saw.Some?
    case Create(value, _) => saw.None? && value == next
    case Remove(value) => saw.None? && value == next
  }

  predicate FileOk(s: State, op: Op) {
    && KindOk(op)
    && (op.phase.Swapping? ==> s.file == FileOf(op.kind, op.phase.next))
    && (!op.phase.Swapping? && op.phase != Waiting && !op.phase.Done? ==> s.file == LastFile(s))
  }

  predicate Between(s: State) {
    exists i | 0 <= i < |s.ops| :: s.ops[i].phase.Swapping?
  }

  ghost predicate Inv(s: State) {
    && Serial(s.ops)
    && Linked(s)
    && HistoryOk(s)
    && (forall i | 0 <= i < |s.ops| :: FileOk(s, s.ops[i]))
    && (!Between(s) ==> s.file == LastFile(s))
  }

  lemma HistoryKept(s: State, t: State)
    requires HistoryOk(s) && t.history == s.history && |s.ops| <= |t.ops|
    requires forall i | 0 <= i < |s.ops| :: IsCommitted(t.ops[i].phase) == IsCommitted(s.ops[i].phase)
    requires forall i | |s.ops| <= i < |t.ops| :: !IsCommitted(t.ops[i].phase)
    ensures HistoryOk(t)
  {
    forall j | 0 <= j < |t.ops| && IsCommitted(t.ops[j].phase) ensures Logged(t, j) {
      assert IsCommitted(s.ops[j].phase) && Logged(s, j);
    }
  }

  /** Only operation `i` is under way. */
  ghost predicate Alone(ops: seq<Op>, i: nat)
    requires i < |ops|
  {
    forall j | 0 <= j < |ops| && j != i :: ops[j].phase == Waiting || ops[j].phase.Done?
  }

  lemma UnderWayAlone(ops: seq<Op>, i: nat)
    requires Serial(ops) && i < |ops| && ops[i].phase != Waiting && !ops[i].phase.Done?
    ensures Alone(ops, i)
    ensures forall j | 0 <= j < i :: ops[j].phase.Done?
    ensures forall j | i < j < |ops| :: ops[j].phase == Waiting
  {
  }

  /** Operation `i` moves on; nothing is committed by that. */
  lemma MovedInv(s: State, i: nat, phase: Phase, file: File)
    requires Inv(s) && i < |s.ops| && s.ops[i].phase != Waiting && !s.ops[i].phase.Done? && !s.ops[i].phase.Swapping?
    requires phase != Waiting && (IsCommitted(phase) <==> IsCommitted(s.ops[i].phase))
    requires KindOk(s.ops[i].(phase := phase))
    requires file == if phase.Swapping? then FileOf(s.ops[i].kind, phase.next) else s.file
    ensures Inv(At(s, i, phase).(file := file))
  {
    var t := At(s, i, phase).(file := file);
    UnderWayAlone(s.ops, i);
    assert FileOk(s, s.ops[i]);
    assert !Between(s);
    HistoryKept(s, t);
    hide HistoryOk;
    assert phase.Swapping? ==> Between(t) by {
      assert t.ops[i].phase == phase;
    }
  }

  lemma StartedInv(s: State, i: nat, phase: Phase, loading: Loading)
    requires Inv(s) && MayBegin(s, i) && KindOk(s.ops[i].(phase := phase))
    requires phase != Waiting && !phase.Swapping? && !IsCommitted(phase)
    ensures Inv(At(s, i, phase).(loading := loading))
  {
    var t := At(s, i, phase).(loading := loading);
    HistoryKept(s, t);
    hide HistoryOk, IsCommitted;
    assert forall j | 0 <= j < i :: s.ops[j].phase.Done?;
    assert forall j | i < j < |s.ops| :: s.ops[j].phase == Waiting;
    assert !Between(s) && !Between(t);
    assert forall j | 0 <= j < |s.ops| :: FileOk(s, s.ops[j]);
  }

  lemma BegunInv(s: State, i: nat)
    requires Inv(s) && MayBegin(s, i)
    ensures Inv(Begun(s, i))
  {
    var op := s.ops[i];
    hide Inv;
    if op.kind.Create? {
      StartedInv(s, i, Writing(None, op.kind.value), s.loading);
    } else if s.slot.Some? {
      StartedInv(s, i, WithValue(op, s.slot.value).phase, s.loading);
    } else {
      StartedInv(s, i, AwaitingLoad, LoadCalled(s).loading);
    }
  }

  lemma EnqueuedInv(s: State, kind: Kind)
    requires Inv(s)
    ensures Inv(Enqueued(s, kind))
  {
    var t := Enqueued(s, kind);
    assert forall j | 0 <= j < |s.ops| :: t.ops[j] == s.ops[j];
    HistoryKept(s, t);
    hide HistoryOk;
    if Between(s) {
      var i :| 0 <= i < |s.ops| && s.ops[i].phase.Swapping?;
      assert t.ops[i].phase.Swapping?;
    }
    forall j | 0 <= j < |t.ops| ensures FileOk(t, t.ops[j]) {
      assert j < |s.ops| ==> FileOk(s, s.ops[j]);
    }
  }

  /** The loader's answer reaches whoever waits for it. */
  lemma AnsweredInv(s: State, ops: seq<Op>, slot: Option<Value>, loading: Loading)
    requires Inv(s) && |ops| == |s.ops|
    requires forall i | 0 <= i < |ops| ::
      || ops[i] == s.ops[i]
      || (s.ops[i].phase == AwaitingLoad && ops[i] == s.ops[i].(phase := ops[i].phase)
          && (ops[i].phase.Changing? || ops[i].phase.Unlinking? || ops[i].phase == Done(Failed) || ops[i].phase == AwaitingLoad)
          && KindOk(ops[i]))
    ensures Inv(s.(ops := ops, slot := slot, loading := loading))
  {
    var t := s.(ops := ops, slot := slot, loading := loading);
    HistoryKept(s, t);
    hide HistoryOk, KindOk, IsCommitted;
    assert Serial(t.ops) && Linked(t);
    hide Serial, Linked;
    if Between(s) {
      var i :| 0 <= i < |s.ops| && s.ops[i].phase.Swapping?;
      assert t.ops[i].phase.Swapping?;
    }
    forall j | 0 <= j < |t.ops| ensures FileOk(t, t.ops[j]) {
      assert FileOk(s, s.ops[j]);
    }
  }

  lemma SwappedInv(s: State, i: nat)
    requires Inv(s) && i < |s.ops| && s.ops[i].phase.Swapping?
    ensures Inv(Swapped(s, i))
  {
    var t := Swapped(s, i);
    UnderWayAlone(s.ops, i);
    var n := |s.history|;
    assert FileOk(s, s.ops[i]) && t.history[n].op == i && LastFile(t) == s.file;
    assert HistoryOk(t) by {
      forall k | 0 <= k < n ensures s.history[k].op < i && t.history[k] == s.history[k] {
        assert IsCommitted(s.ops[s.history[k].op].phase);
      }
      forall j | 0 <= j < |t.ops| && IsCommitted(t.ops[j].phase) ensures Logged(t, j) {
        if j != i {
          assert IsCommitted(s.ops[j].phase) && Logged(s, j);
          var k :| 0 <= k < n && s.history[k].op == j;
          assert t.history[k].op == j;
        }
      }
    }
    assert !Between(t);
  }

  lemma LoadStepInv(s: State, e: Event)
    requires Inv(s) && Enabled(s, e) && (e.ELoad? || e.ERead? || e.ELoaded?)
    ensures Inv(Step(s, e))
  {
    assert forall i | 0 <= i < |s.ops| :: FileOk(s, s.ops[i]) && KindOk(s.ops[i]);
    hide Inv, FileOk, Meaning;
    AnsweredInv(s, Step(s, e).ops, Step(s, e).slot, Step(s, e).loading);
  }

  /** An event of one operation under way moves that operation to its next phase. */
  lemma Moves(s: State, e: Event)
    requires Enabled(s, e) && (e.EChanged? || e.EWrote? || e.EUnlinked? || e.EFinished?) && KindOk(s.ops[e.i])
    ensures var i, t := e.i, Step(s, e);
            && i < |s.ops| && |t.ops| == |s.ops|
            && var phase := t.ops[i].phase;
               && t == At(s, i, phase).(file := t.file)
               && s.ops[i].phase != Waiting && !s.ops[i].phase.Done? && !s.ops[i].phase.Swapping?
               && phase != Waiting && (IsCommitted(phase) <==> IsCommitted(s.ops[i].phase))
               && KindOk(s.ops[i].(phase := phase))
               && t.file == (if phase.Swapping? then FileOf(s.ops[i].kind, phase.next) else s.file)
  {
    hide Meaning, Resumed, Rejected;
    if !e.EUnlinked? || e.ok {
      assert Step(s, e).ops == s.ops[e.i := s.ops[e.i].(phase := Step(s, e).ops[e.i].phase)];
    }
  }

  lemma MoveStepInv(s: State, e: Event)
    requires Inv(s) && Enabled(s, e) && (e.EChanged? || e.EWrote? || e.EUnlinked? || e.EFinished?)
    ensures Inv(Step(s, e))
  {
    assert FileOk(s, s.ops[e.i]) && KindOk(s.ops[e.i]);
    hide Inv, KindOk, Step, IsCommitted;
    Moves(s, e);
    MovedInv(s, e.i, Step(s, e).ops[e.i].phase, Step(s, e).file);
  }

  lemma StepInv(s: State, e: Event)
    requires Inv(s) && Enabled(s, e)
    ensures Inv(Step(s, e))
  {
    hide Inv, Meaning, Resumed, Rejected;
    match e {
      case ELoad => LoadStepInv(s, e);
      case ERead(_) => LoadStepInv(s, e);
      case ELoaded => LoadStepInv(s, e);
      case EEnqueue(kind) => EnqueuedInv(s, kind);
      case EBegin(i) => BegunInv(s, i);
      case ESwap(i) => SwappedInv(s, i);
      case _ => MoveStepInv(s, e);
    }
  }
}
