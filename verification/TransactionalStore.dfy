/** The store as an object, one method per stretch of code between two awaits. */
module TransactionalStore {
  import opened Wrappers
  import opened StoreSteps
  import opened StoreRuns

  class TransactionalStore {
    const absent: Value
    ghost const first: File
    var file: File // what is on disk
    var slot: Option<Value>
    var loading: Loading
    var ops: seq<Op>
    var tail: Option<nat>
    ghost var history: seq<Commit>

    constructor (absent: Value, file: File)
      ensures Now() == Initial(absent, file) && Inv(Now())
    {
      this.absent, this.first, this.file := absent, file, file;
      slot, loading, ops, tail, history := None, NotLoading, [], None, [];
    }

    ghost function Now(): State
      reads this
    {
      State(absent, first, file, slot, loading, ops, tail, history)
    }

    // ---- load() ----

    method Load()
      requires Inv(Now())
      modifies this
      ensures Now() == LoadCalled(old(Now()))
      ensures Inv(Now())
      ensures ReadsOnce(old(Now()), Now())
    {
      hide Inv, ReadsOnce;
      StepInv(Now(), ELoad);
      LoadMeans(Now());
      if slot.Some? || loading != NotLoading {
        return;
      }
      loading := Reading;
    }

    method OnRead(ok: bool)
      requires Inv(Now()) && loading == Reading
      modifies this
      ensures Now() == Read(old(Now()), ok)
      ensures Inv(Now())
      ensures ReadsOrRejects(old(Now()), Now(), ok)
    {
      hide Inv, ReadsOrRejects;
      StepInv(Now(), ERead(ok));
      ReadMeans(Now(), ok);
      if ok {
        loading := HaveRead(if file.Some? then file.value else absent);
      } else {
        loading := NotLoading;
        ops := Rejected(ops);
      }
    }

    method OnLoaded()
      requires Inv(Now()) && loading.HaveRead?
      modifies this
      ensures Now() == Loaded(old(Now()))
      ensures Inv(Now())
      ensures ServesWaiting(old(Now()), Now())
    {
      hide Inv, ServesWaiting;
      StepInv(Now(), ELoaded);
      LoadedMeans(Now());
      var value := loading.value;
      slot := Some(value);
      loading := NotLoading;
      ops := Resumed(ops, value);
    }

    // ---- The tail ----

    method Enqueue(kind: Kind) returns (i: nat)
      requires Inv(Now())
      modifies this
      ensures Now() == Enqueued(old(Now()), kind)
      ensures Inv(Now())
      ensures JoinsTail(old(Now()), Now(), i)
    {
      hide Inv, JoinsTail;
      StepInv(Now(), EEnqueue(kind));
      EnqueueMeans(Now(), kind);
      i := |ops|;
      ops := ops + [Op(kind, tail, Waiting)];
      tail := Some(i);
    }

    method Move(i: nat, phase: Phase)
      requires i < |ops|
      modifies this`ops
      ensures Now() == At(old(Now()), i, phase)
    {
      ops := ops[i := ops[i].(phase := phase)];
    }

    /** The predecessor has settled: read the committed value, loading it first if need be. */
    method Begin(i: nat)
      requires Inv(Now()) && MayBegin(Now(), i)
      modifies this
      ensures Now() == Begun(old(Now()), i)
      ensures Inv(Now())
      ensures StartsFrom(old(Now()), Now(), i)
    {
      hide Inv, Serial, Linked, HistoryOk, StartsFrom;
      StepInv(Now(), EBegin(i));
      BeginMeans(Now(), i);
      var kind := ops[i].kind;
      if kind.Create? {
        Move(i, Writing(None, kind.value));
      } else if slot.Some? {
        Move(i, if kind.Update? then Changing(slot.value) else Unlinking(kind.next));
      } else {
        if loading == NotLoading {
          loading := Reading;
        }
        Move(i, AwaitingLoad);
      }
    }

    // ---- One operation ----

    method OnChanged(i: nat, change: Change)
      requires Inv(Now()) && i < |ops| && ops[i].phase.Changing?
      modifies this
      ensures Now() == Changed(old(Now()), i, change)
      ensures Inv(Now())
      ensures WritesOnlyNews(old(Now()), Now(), i, change)
    {
      hide Inv, WritesOnlyNews;
      StepInv(Now(), EChanged(i, change));
      ChangedMeans(Now(), i, change);
      match change {
        case Threw => Move(i, Done(Failed));
        case Same => Move(i, Done(Unchanged));
        case Next(value) => Move(i, Writing(Some(ops[i].phase.current), value));
      }
    }

    method OnWritten(i: nat, ok: bool)
      requires Inv(Now()) && i < |ops| && ops[i].phase.Writing?
      modifies this
      ensures Now() == Wrote(old(Now()), i, ok)
      ensures Inv(Now())
      ensures WritesOrLeaves(old(Now()), Now(), i, ok)
    {
      hide Inv, WritesOrLeaves;
      StepInv(Now(), EWrote(i, ok));
      WrittenMeans(Now(), i, ok);
      var kind, saw, next := ops[i].kind, ops[i].phase.saw, ops[i].phase.next;
      if !ok || (kind.Create? && !kind.replace && file.Some?) {
        Move(i, Done(Failed));
        return;
      }
      file := Some(next);
      Move(i, Swapping(saw, next));
    }

    method OnUnlinked(i: nat, ok: bool)
      requires Inv(Now()) && i < |ops| && ops[i].phase.Unlinking?
      modifies this
      ensures Now() == Unlinked(old(Now()), i, ok)
      ensures Inv(Now())
      ensures UnlinksOrLeaves(old(Now()), Now(), i, ok)
    {
      hide Inv, UnlinksOrLeaves;
      StepInv(Now(), EUnlinked(i, ok));
      UnlinkedMeans(Now(), i, ok);
      if !ok {
        Move(i, Done(Failed));
        return;
      }
      file := None;
      Move(i, Swapping(None, ops[i].phase.next));
    }

    /** Only now does a reader see the new value. */
    method Swap(i: nat)
      requires Inv(Now()) && i < |ops| && ops[i].phase.Swapping?
      modifies this
      ensures Now() == Swapped(old(Now()), i)
      ensures Inv(Now())
      ensures FollowsTheFile(old(Now()), Now(), i)
    {
      hide Inv, FollowsTheFile;
      StepInv(Now(), ESwap(i));
      SwapMeans(Now(), i);
      var op := ops[i];
      slot := Some(op.phase.next);
      history := history + [Commit(i, op.phase.saw, op.phase.next, FileOf(op.kind, op.phase.next))];
      Move(i, if op.kind.Remove? then Done(Committed) else AfterCommit);
    }

    method OnAfterCommit(i: nat, ok: bool)
      requires Inv(Now()) && i < |ops| && ops[i].phase == AfterCommit
      modifies this
      ensures Now() == Finished(old(Now()), i, ok)
      ensures Inv(Now())
      ensures KeepsCommit(old(Now()), Now(), i, ok)
    {
      hide Inv, KeepsCommit;
      StepInv(Now(), EFinished(i, ok));
      FinishedMeans(Now(), i, ok);
      Move(i, Done(if ok then Committed else CommittedButFailed));
    }
  }

  // ---- What the stretches come to ----

  /** Neither the file, memory nor the history changes. */
  predicate Untouched(before: State, after: State) {
    after.file == before.file && after.slot == before.slot && after.history == before.history
  }

  /** A value in memory is not read again, and a read under way is shared. */
  ghost predicate ReadsOnce(before: State, after: State) {
    && Untouched(before, after) && after.ops == before.ops
    && (before.slot.Some? || before.loading != NotLoading ==> after == before)
    && (after.slot.None? ==> after.loading != NotLoading)
  }

  lemma LoadMeans(s: State)
    ensures ReadsOnce(s, LoadCalled(s))
  {
  }

  /** A read that failed fails whoever waits for it and is forgotten, so that the next load reads again. */
  ghost predicate ReadsOrRejects(before: State, after: State, ok: bool) {
    && Untouched(before, after) && |after.ops| == |before.ops|
    && (ok ==> after.loading == HaveRead(if before.file.Some? then before.file.value else before.absent) && after.ops == before.ops)
    && (!ok ==> after.loading == NotLoading && forall i | 0 <= i < |before.ops| ::
          after.ops[i] == before.ops[i].(phase := if before.ops[i].phase == AwaitingLoad then Done(Failed) else before.ops[i].phase))
  }

  lemma ReadMeans(s: State, ok: bool)
    ensures ReadsOrRejects(s, Read(s, ok), ok)
  {
  }

  /** The loaded value is kept, and whoever waits for it goes on: an update with its change, a removal with its unlink. */
  ghost predicate ServesWaiting(before: State, after: State) {
    && before.loading.HaveRead? && after.loading == NotLoading && after.slot == Some(before.loading.value)
    && after.file == before.file && after.history == before.history && |after.ops| == |before.ops|
    && (forall i | 0 <= i < |before.ops| && before.ops[i].phase != AwaitingLoad :: after.ops[i] == before.ops[i])
    && (forall i | 0 <= i < |before.ops| && before.ops[i].phase == AwaitingLoad ::
          && (before.ops[i].kind == Update ==> after.ops[i].phase == Changing(before.loading.value))
          && (before.ops[i].kind.Remove? ==> after.ops[i].phase == Unlinking(before.ops[i].kind.next)))
  }

  lemma LoadedMeans(s: State)
    requires s.loading.HaveRead?
    ensures ServesWaiting(s, Loaded(s))
  {
  }

  /** An unlink that failed leaves everything but its own outcome. */
  ghost predicate UnlinksOrLeaves(before: State, after: State, i: nat, ok: bool) {
    && i < |before.ops| && before.ops[i].phase.Unlinking? && |after.ops| == |before.ops|
    && after.slot == before.slot && after.history == before.history && after.loading == before.loading
    && if ok then after.file == None && after.ops[i].phase == Swapping(None, before.ops[i].phase.next)
       else after.file == before.file && after.ops[i].phase == Done(Failed)
  }

  lemma UnlinkedMeans(s: State, i: nat, ok: bool)
    requires i < |s.ops| && s.ops[i].phase.Unlinking?
    ensures UnlinksOrLeaves(s, Unlinked(s, i, ok), i, ok)
  {
  }

  /** Whatever `afterCommit` does, the commit stands. */
  ghost predicate KeepsCommit(before: State, after: State, i: nat, ok: bool) {
    && i < |before.ops| == |after.ops| && Untouched(before, after) && after.loading == before.loading
    && after.ops[i].phase == Done(if ok then Committed else CommittedButFailed)
  }

  lemma FinishedMeans(s: State, i: nat, ok: bool)
    requires i < |s.ops|
    ensures KeepsCommit(s, Finished(s, i, ok), i, ok)
  {
  }

  /** The new operation, the last, may begin exactly when all earlier ones have settled. */
  ghost predicate JoinsTail(before: State, after: State, i: nat) {
    && Untouched(before, after) && after.loading == before.loading
    && i == |before.ops| && |after.ops| == i + 1 && after.ops[..i] == before.ops
    && after.ops[i].phase == Waiting
    && (MayBegin(after, i) <==> forall j | 0 <= j < i :: before.ops[j].phase.Done?)
  }

  lemma EnqueueMeans(s: State, kind: Kind)
    requires Inv(s)
    ensures JoinsTail(s, Enqueued(s, kind), |s.ops|)
  {
  }

  /**
   * An operation begins with every earlier one settled. A create goes straight to its write; an
   * update or a removal starts from the value in memory, or waits for it to be loaded.
   */
  ghost predicate StartsFrom(before: State, after: State, i: nat) {
    && i < |before.ops| == |after.ops| && after.ops == before.ops[i := before.ops[i].(phase := after.ops[i].phase)]
    && (forall j | 0 <= j < i :: before.ops[j].phase.Done?)
    && Untouched(before, after)
    && match before.ops[i].kind
       case Create(value, _) => after.ops[i].phase == Writing(None, value) && after.loading == before.loading
       case Update =>
         if before.slot.Some? then after.ops[i].phase == Changing(before.slot.value)
         else after.ops[i].phase == AwaitingLoad && after.loading != NotLoading
       case Remove(next) =>
         if before.slot.Some? then after.ops[i].phase == Unlinking(next)
         else after.ops[i].phase == AwaitingLoad && after.loading != NotLoading
  }

  lemma BeginMeans(s: State, i: nat)
    requires Inv(s) && MayBegin(s, i)
    ensures StartsFrom(s, Begun(s, i), i)
  {
    assert Serial(s.ops) && s.ops[i].prev == if i == 0 then None else Some(i - 1);
    forall j | 0 <= j < i ensures s.ops[j].phase.Done? {
      if j < i - 1 {
        assert s.ops[i - 1].phase.Done?;
      }
    }
  }

  /** Only a change to another value goes on to the write; it writes the value the change returned over the one it was given. */
  ghost predicate WritesOnlyNews(before: State, after: State, i: nat, change: Change) {
    && i < |before.ops| && before.ops[i].phase.Changing? && |after.ops| == |before.ops|
    && Untouched(before, after) && after.loading == before.loading
    && (after.ops[i].phase.Writing? <==> change.Next?)
    && (change.Next? ==> after.ops[i].phase == Writing(Some(before.ops[i].phase.current), change.value))
    && (change == Threw ==> after.ops[i].phase == Done(Failed))
    && (change == Same ==> after.ops[i].phase == Done(Unchanged))
  }

  lemma ChangedMeans(s: State, i: nat, change: Change)
    requires i < |s.ops| && s.ops[i].phase.Changing?
    ensures WritesOnlyNews(s, Changed(s, i, change), i, change)
  {
  }

  /** A write that failed, or a create that met a file it may not replace, leaves everything but its own outcome. */
  ghost predicate WritesOrLeaves(before: State, after: State, i: nat, ok: bool) {
    && i < |before.ops| && before.ops[i].phase.Writing? && |after.ops| == |before.ops|
    && after.slot == before.slot && after.history == before.history && after.loading == before.loading
    && if ok && !(before.ops[i].kind.Create? && !before.ops[i].kind.replace && before.file.Some?) then
         after.file == Some(before.ops[i].phase.next) && after.ops[i].phase.Swapping?
       else after.file == before.file && after.ops[i].phase == Done(Failed)
  }

  lemma WrittenMeans(s: State, i: nat, ok: bool)
    requires i < |s.ops| && s.ops[i].phase.Writing?
    ensures WritesOrLeaves(s, Wrote(s, i, ok), i, ok)
  {
  }

  /** Memory follows the file, which held the change before the swap and is the last commit's after it. */
  ghost predicate FollowsTheFile(before: State, after: State, i: nat) {
    && i < |before.ops| && before.ops[i].phase.Swapping?
    && before.file == FileOf(before.ops[i].kind, before.ops[i].phase.next)
    && after.file == before.file && after.slot == Some(before.ops[i].phase.next)
    && (!before.ops[i].kind.Remove? ==> after.file == after.slot)
    && |after.history| == |before.history| + 1 && after.history[|before.history|].op == i
    && after.file == LastFile(after) && !Between(after)
  }

  lemma SwapMeans(s: State, i: nat)
    requires Inv(s) && i < |s.ops| && s.ops[i].phase.Swapping?
    ensures FollowsTheFile(s, Swapped(s, i), i)
  {
    UnderWayAlone(s.ops, i);
    assert FileOk(s, s.ops[i]);
    hide Inv, Serial, Linked, HistoryOk;
  }
}
