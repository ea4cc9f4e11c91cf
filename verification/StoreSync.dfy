/** Memory and file: what orderly callers of the transactional store can rely on. */
module StoreSync {
  import opened Wrappers
  import opened StoreSteps
  import opened StoreRuns

  /** What an operation under way knows of the committed value. */
  predicate Knows(s: State, op: Op) {
    match op.phase
    case AwaitingLoad => s.loading != NotLoading
    case Changing(current) => s.slot == Some(current)
    case Writing(saw, _) => saw.Some? ==> s.slot == saw
    case Unlinking(_) => s.slot.Some?
    case Swapping(saw, _) =>
      && (op.kind.Remove? ==> s.slot.Some?)
      && (saw.Some? ==> s.slot == saw && saw.value == Meaning(s, LastFile(s)))
    case AfterCommit => s.slot.Some?
    case _ => true
  }

  function FileBefore(s: State, k: nat): File
    requires k <= |s.history|
  {
    if k == 0 then s.first else s.history[k - 1].file
  }

  predicate Chained(s: State, k: nat)
    requires k < |s.history|
  {
    && s.history[k].value == Meaning(s, s.history[k].file)
    && (s.history[k].saw.Some? ==> s.history[k].saw.value == Meaning(s, FileBefore(s, k)))
  }

  ghost predicate AllChained(s: State) {
    forall k | 0 <= k < |s.history| :: Chained(s, k)
  }

  lemma ChainKept(s: State, t: State)
    requires AllChained(s) && t.history == s.history && t.first == s.first && t.absent == s.absent
    ensures AllChained(t)
  {
    forall k | 0 <= k < |t.history| ensures Chained(t, k) {
      assert Chained(s, k);
    }
  }

  predicate InStep(s: State) {
    && (s.slot.Some? ==> s.slot.value == Meaning(s, s.file))
    && (s.loading.HaveRead? ==> s.loading.value == Meaning(s, s.file))
  }

  ghost predicate Sync(s: State) {
    && (s.slot.Some? ==> s.loading == NotLoading)
    && (forall i | 0 <= i < |s.ops| :: Knows(s, s.ops[i]))
    && AllChained(s)
    && (!Between(s) ==> InStep(s))
  }

  /** Operation `i` moves on without touching file, memory or history. */
  lemma MovedSync(s: State, i: nat, phase: Phase)
    requires Sync(s) && i < |s.ops| && !s.ops[i].phase.Swapping? && !phase.Swapping? && Knows(s, s.ops[i].(phase := phase))
    ensures Sync(At(s, i, phase))
  {
    var t := At(s, i, phase);
    if Between(s) {
      var j :| 0 <= j < |s.ops| && s.ops[j].phase.Swapping?;
      assert t.ops[j].phase.Swapping?;
    }
    ChainKept(s, t);
  }

  lemma CalledSync(s: State)
    requires Sync(s)
    ensures Sync(LoadCalled(s))
  {
    var t := LoadCalled(s);
    ChainKept(s, t);
    assert forall i | 0 <= i < |s.ops| :: Knows(s, s.ops[i]) && Knows(t, s.ops[i]);
  }

  lemma ReadSync(s: State, ok: bool)
    requires Sync(s) && s.loading == Reading
    ensures Sync(Read(s, ok))
  {
    var t := Read(s, ok);
    ChainKept(s, t);
    assert forall i | 0 <= i < |s.ops| :: Knows(s, s.ops[i]) && Knows(t, t.ops[i]);
    if Between(s) {
      var j :| 0 <= j < |s.ops| && s.ops[j].phase.Swapping?;
      assert t.ops[j].phase.Swapping?;
    }
  }

  lemma LoadedSync(s: State)
    requires Inv(s) && Sync(s) && s.loading.HaveRead?
    ensures Sync(Loaded(s))
  {
    var t := Loaded(s);
    assert forall i | 0 <= i < |s.ops| :: FileOk(s, s.ops[i]);
    hide Inv, FileOk;
    ChainKept(s, t);
    assert forall i | 0 <= i < |s.ops| :: Knows(s, s.ops[i]) && Knows(t, t.ops[i]);
    if Between(s) {
      var j :| 0 <= j < |s.ops| && s.ops[j].phase.Swapping?;
      assert t.ops[j].phase.Swapping?;
    }
  }

  lemma EnqueuedSync(s: State, kind: Kind)
    requires Sync(s)
    ensures Sync(Enqueued(s, kind))
  {
    var t := Enqueued(s, kind);
    ChainKept(s, t);
    assert forall i | 0 <= i < |s.ops| :: Knows(s, s.ops[i]) && t.ops[i] == s.ops[i];
    if Between(s) {
      var j :| 0 <= j < |s.ops| && s.ops[j].phase.Swapping?;
      assert t.ops[j].phase.Swapping?;
    }
  }

  lemma BegunSync(s: State, i: nat)
    requires Sync(s) && MayBegin(s, i)
    ensures Sync(Begun(s, i))
  {
    CalledSync(s);
    hide Sync;
    var op := s.ops[i];
    if op.kind.Create? {
      MovedSync(s, i, Writing(None, op.kind.value));
    } else if s.slot.Some? {
      MovedSync(s, i, WithValue(op, s.slot.value).phase);
    } else {
      MovedSync(LoadCalled(s), i, AwaitingLoad);
    }
  }

  /** The file is written: from here to the swap memory may lag behind it. */
  lemma FiledSync(s: State, i: nat, saw: Option<Value>, next: Value, file: File)
    requires Inv(s) && Sync(s) && i < |s.ops|
    requires s.ops[i].phase == Writing(saw, next) || (s.ops[i].phase == Unlinking(next) && saw == None)
    ensures Sync(At(s, i, Swapping(saw, next)).(file := file))
  {
    var t := At(s, i, Swapping(saw, next)).(file := file);
    UnderWayAlone(s.ops, i);
    assert FileOk(s, s.ops[i]) && Knows(s, s.ops[i]) && !Between(s);
    assert t.ops[i].phase.Swapping?;
    ChainKept(s, t);
  }

  lemma SwappedSync(s: State, i: nat)
    requires Inv(s) && Sync(s) && Enabled(s, ESwap(i)) && Orderly(s, ESwap(i))
    ensures Sync(Swapped(s, i))
  {
    var t := Swapped(s, i);
    UnderWayAlone(s.ops, i);
    assert FileOk(s, s.ops[i]) && Knows(s, s.ops[i]);
    ChainExtended(s, t);
    hide Inv, AllChained, Alone;
    assert InStep(t);
    assert forall j | 0 <= j < |t.ops| && j != i :: t.ops[j] == s.ops[j];
  }

  lemma ChainExtended(s: State, t: State)
    requires AllChained(s) && |t.history| == |s.history| + 1 && t.history[..|s.history|] == s.history
    requires t.first == s.first && t.absent == s.absent && Chained(t, |s.history|)
    ensures AllChained(t)
  {
    forall k | 0 <= k < |t.history| ensures Chained(t, k) {
      if k < |s.history| {
        assert Chained(s, k) && t.history[k] == s.history[k] && FileBefore(t, k) == FileBefore(s, k);
      }
    }
  }

  lemma StepSync(s: State, e: Event)
    requires Inv(s) && Sync(s) && Enabled(s, e) && Orderly(s, e)
    ensures Sync(Step(s, e))
  {
    hide Inv, Sync, Resumed, Rejected, Meaning;
    match e {
      case ELoad => CalledSync(s);
      case ERead(ok) => ReadSync(s, ok);
      case ELoaded => LoadedSync(s);
      case EEnqueue(kind) => EnqueuedSync(s, kind);
      case EBegin(i) => BegunSync(s, i);
      case EChanged(i, change) => ChangedSync(s, i, change);
      case EWrote(i, ok) =>
        if ok && !Clobbers(s, i) {
          FiledSync(s, i, s.ops[i].phase.saw, s.ops[i].phase.next, Some(s.ops[i].phase.next));
        } else {
          MovedSync(s, i, Done(Failed));
        }
      case EUnlinked(i, ok) =>
        if ok {
          FiledSync(s, i, None, s.ops[i].phase.next, None);
        } else {
          MovedSync(s, i, Done(Failed));
        }
      case ESwap(i) => SwappedSync(s, i);
      case EFinished(i, ok) => MovedSync(s, i, Done(if ok then Committed else CommittedButFailed));
    }
  }

  lemma ChangedSync(s: State, i: nat, change: Change)
    requires Sync(s) && i < |s.ops| && s.ops[i].phase.Changing?
    ensures Sync(Changed(s, i, change))
  {
    assert Knows(s, s.ops[i]);
    hide Sync;
    MovedSync(s, i, Changed(s, i, change).ops[i].phase);
  }

  // ---- Runs ----

  lemma {:induction false} RunInv(s: State, events: seq<Event>, end: State)
    requires Inv(s) && Reaches(s, events, end)
    ensures Inv(end)
    decreases |events|
  {
    if events != [] {
      StepInv(s, events[0]);
      RunInv(Step(s, events[0]), events[1..], end);
    }
  }

  lemma {:induction false} OrderlySync(s: State, events: seq<Event>, end: State)
    requires Inv(s) && Sync(s) && OrderlyRun(s, events, end)
    ensures Inv(end) && Sync(end)
    decreases |events|
  {
    if events != [] {
      StepInv(s, events[0]);
      StepSync(s, events[0]);
      OrderlySync(Step(s, events[0]), events[1..], end);
    }
  }

  lemma InitialOk(absent: Value, file: File)
    ensures Inv(Initial(absent, file)) && Sync(Initial(absent, file))
  {
  }

  /** Operations take effect one at a time and in the order in which they were enqueued. */
  lemma EnqueueOrder(absent: Value, file: File, events: seq<Event>, s: State, i: nat, j: nat)
    requires Reaches(Initial(absent, file), events, s) && i < j < |s.ops|
    ensures s.ops[j].phase == Waiting || s.ops[i].phase.Done?
    ensures forall a, b | 0 <= a < |s.history| && 0 <= b < |s.history| && s.history[a].op == i && s.history[b].op == j :: a < b
  {
    InitialOk(absent, file);
    RunInv(Initial(absent, file), events, s);
  }

  /**
   * The file holds what the last commit put there, and only commits change it: a change, a write
   * or an unlink that fails leaves it as it was, and a failing `afterCommit` does not undo it.
   */
  lemma FileHoldsTheLastCommit(absent: Value, file: File, events: seq<Event>, s: State)
    requires Reaches(Initial(absent, file), events, s) && !Between(s)
    ensures s.file == if s.history == [] then file else s.history[|s.history| - 1].file
    ensures forall i | 0 <= i < |s.ops| :: Logged(s, i) <==> IsCommitted(s.ops[i].phase)
  {
    InitialOk(absent, file);
    RunInv(Initial(absent, file), events, s);
    FirstKept(Initial(absent, file), events, s);
  }

  lemma {:induction false} FirstKept(s: State, events: seq<Event>, end: State)
    requires Reaches(s, events, end)
    ensures end.first == s.first && end.absent == s.absent
    decreases |events|
  {
    if events != [] {
      hide Resumed, Rejected, Meaning;
      FirstKept(Step(s, events[0]), events[1..], end);
    }
  }

  lemma {:induction false} OrderlyReaches(s: State, events: seq<Event>, end: State)
    requires OrderlyRun(s, events, end)
    ensures Reaches(s, events, end)
    decreases |events|
  {
    if events != [] {
      OrderlyReaches(Step(s, events[0]), events[1..], end);
    }
  }

  /** With orderly callers the loaded memory equals the file whenever no operation is between write and swap. */
  lemma MemoryIsTheFile(absent: Value, file: File, events: seq<Event>, s: State)
    requires OrderlyRun(Initial(absent, file), events, s) && !Between(s) && s.slot.Some?
    ensures s.slot.value == if s.file.Some? then s.file.value else absent
  {
    InitialOk(absent, file);
    OrderlySync(Initial(absent, file), events, s);
    OrderlyReaches(Initial(absent, file), events, s);
    FirstKept(Initial(absent, file), events, s);
  }

  /** With orderly callers each update sees the value its predecessor committed. */
  lemma UpdatesSeeTheirPredecessor(absent: Value, file: File, events: seq<Event>, s: State, k: nat)
    requires OrderlyRun(Initial(absent, file), events, s) && k < |s.history| && s.history[k].saw.Some?
    ensures k > 0 ==> s.history[k].saw.value == s.history[k - 1].value
    ensures k == 0 ==> s.history[k].saw.value == if file.Some? then file.value else absent
  {
    InitialOk(absent, file);
    OrderlySync(Initial(absent, file), events, s);
    OrderlyReaches(Initial(absent, file), events, s);
    FirstKept(Initial(absent, file), events, s);
    assert Chained(s, k);
    if k > 0 {
      assert Chained(s, k - 1);
    }
  }

  // ---- Why a create must not commit during a load ----

  lemma OneMore(s: State, e: Event, events: seq<Event>, end: State)
    requires Enabled(s, e) && Orderly(s, e) && OrderlyRun(Step(s, e), events, end)
    ensures OrderlyRun(s, [e] + events, end)
  {
    assert ([e] + events)[1..] == events;
  }

  /** Settle the loader's answer, whatever it is. */
  lemma OutOfStep(s: State, value: Value)
    requires s.loading == HaveRead(value) && value != Meaning(s, s.file) && !Between(s)
    ensures OrderlyRun(s, [ELoaded], Loaded(s)) && !Between(Loaded(s)) && !MemoryHolds(Loaded(s))
  {
    OneMore(s, ELoaded, [], Loaded(s));
    assert [ELoaded] + [] == [ELoaded];
    assert forall i | 0 <= i < |s.ops| :: !s.ops[i].phase.Swapping?;
  }

  /** The loaded memory, if there is one, is what the file means. */
  predicate MemoryHolds(s: State) {
    s.slot.Some? ==> s.slot.value == Meaning(s, s.file)
  }

  /** The create commits now, and from here on the callers are orderly. */
  ghost predicate SafeFromHere(s: State) {
    forall after, end :: OrderlyRun(s, after, end) && !Between(end) ==> MemoryHolds(end)
  }

  /**
   * A create that commits leaves memory and file equal in every orderly continuation exactly when
   * no load is in flight at the commit.
   */
  lemma CreateIsSafe(absent: Value, file: File, before: seq<Event>, s: State, i: nat)
    requires OrderlyRun(Initial(absent, file), before, s) && Enabled(s, ESwap(i)) && s.ops[i].kind.Create?
    ensures SafeFromHere(Step(s, ESwap(i))) <==> s.loading == NotLoading
  {
    InitialOk(absent, file);
    OrderlySync(Initial(absent, file), before, s);
    if s.loading == NotLoading {
      StepInv(s, ESwap(i));
      StepSync(s, ESwap(i));
      forall after, end | OrderlyRun(Step(s, ESwap(i)), after, end) && !Between(end) ensures MemoryHolds(end) {
        OrderlySync(Step(s, ESwap(i)), after, end);
      }
    } else {
      var after, end := CreateDuringLoad(absent, file, before, s, i);
    }
  }

  /** The failing half: from any such state with a load in flight an orderly run leads to memory that differs from the file. */
  lemma CreateDuringLoad(absent: Value, file: File, before: seq<Event>, s: State, i: nat) returns (after: seq<Event>, end: State)
    requires OrderlyRun(Initial(absent, file), before, s)
    requires Enabled(s, ESwap(i)) && s.ops[i].kind.Create? && s.loading != NotLoading
    ensures OrderlyRun(Step(s, ESwap(i)), after, end) && !Between(end) && !MemoryHolds(end)
  {
    InitialOk(absent, file);
    OrderlySync(Initial(absent, file), before, s);
    var t := Swapped(s, i);
    UnderWayAlone(s.ops, i);
    assert FileOk(s, s.ops[i]) && forall j | 0 <= j < |t.ops| :: !t.ops[j].phase.Swapping?;
    StepInv(s, ESwap(i));
    hide Inv, Sync, OrderlyRun, Resumed, Rejected;
    after, end := LateLoad(t, i);
  }

  /** After the create: finish it, replace the value once more, and let the load answer last. */
  lemma LateLoad(s: State, i: nat) returns (events: seq<Event>, end: State)
    requires Inv(s) && i < |s.ops| && s.ops[i].phase == AfterCommit && s.loading != NotLoading && s.slot.Some?
    requires !Between(s)
    ensures OrderlyRun(s, events, end) && !Between(end) && !MemoryHolds(end)
  {
    if s.loading == Reading {
      var t := Read(s, true);
      StepInv(s, ERead(true));
      events, end := LateAnswer(t, i);
      OneMore(s, ERead(true), events, end);
      events := [ERead(true)] + events;
    } else {
      events, end := LateAnswer(s, i);
    }
  }

  lemma LateAnswer(s: State, i: nat) returns (events: seq<Event>, end: State)
    requires Inv(s) && i < |s.ops| && s.ops[i].phase == AfterCommit && s.loading.HaveRead? && s.slot.Some?
    requires !Between(s)
    ensures OrderlyRun(s, events, end) && !Between(end) && !MemoryHolds(end)
  {
    var value := s.loading.value;
    if value != Meaning(s, s.file) {
      OutOfStep(s, value);
      return [ELoaded], Loaded(s);
    }
    UnderWayAlone(s.ops, i);
    var t := Finished(s, i, true);
    StepInv(s, EFinished(i, true));
    hide Inv, OrderlyRun;
    var first, m := FailWaiting(t, i + 1);
    var second;
    second, end := Overtake(m);
    Joined(t, first, m, second, end);
    OneMore(s, EFinished(i, true), first + second, end);
    events := [EFinished(i, true)] + (first + second);
  }

  lemma {:induction false} Joined(s: State, first: seq<Event>, m: State, second: seq<Event>, end: State)
    requires OrderlyRun(s, first, m) && OrderlyRun(m, second, end)
    ensures OrderlyRun(s, first + second, end)
    decreases |first|
  {
    if first == [] {
      assert first + second == second;
    } else {
      Joined(Step(s, first[0]), first[1..], m, second, end);
      assert (first + second)[1..] == first[1..] + second;
    }
  }

  /** The event by which an operation that has just begun fails. */
  function Failure(kind: Kind, k: nat): Event {
    match kind
    case Update => EChanged(k, Threw)
    case Create(_, _) => EWrote(k, false)
    case Remove(_) => EUnlinked(k, false)
  }

  lemma {:induction false} FailWaiting(s: State, k: nat) returns (events: seq<Event>, end: State)
    requires Inv(s) && k <= |s.ops| && s.slot.Some?
    requires forall j | 0 <= j < k :: s.ops[j].phase.Done?
    requires forall j | k <= j < |s.ops| :: s.ops[j].phase == Waiting
    ensures OrderlyRun(s, events, end) && end == s.(ops := end.ops) && |end.ops| == |s.ops|
    ensures (forall j | 0 <= j < |end.ops| :: end.ops[j].phase.Done?) && Inv(end)
    decreases |s.ops| - k
  {
    if k == |s.ops| {
      return [], s;
    }
    var e := Failure(s.ops[k].kind, k);
    var b := BeginAndFail(s, k);
    hide Inv, OrderlyRun;
    events, end := FailWaiting(b, k + 1);
    OneMore(Begun(s, k), e, events, end);
    OneMore(s, EBegin(k), [e] + events, end);
    events := [EBegin(k)] + ([e] + events);
  }

  lemma BeginAndFail(s: State, k: nat) returns (b: State)
    requires Inv(s) && k < |s.ops| && s.slot.Some? && s.ops[k].phase == Waiting
    requires forall j | 0 <= j < k :: s.ops[j].phase.Done?
    ensures Enabled(s, EBegin(k)) && Enabled(Begun(s, k), Failure(s.ops[k].kind, k))
    ensures b == Step(Begun(s, k), Failure(s.ops[k].kind, k)) && Inv(b)
    ensures b == s.(ops := s.ops[k := s.ops[k].(phase := Done(Failed))])
  {
    assert MayBegin(s, k);
    hide Inv;
    StepInv(s, EBegin(k));
    FailedAtOnce(s, k);
    StepInv(Begun(s, k), Failure(s.ops[k].kind, k));
    b := Step(Begun(s, k), Failure(s.ops[k].kind, k));
  }

  lemma FailedAtOnce(s: State, k: nat)
    requires k < |s.ops| && s.slot.Some?
    ensures var a, e := Begun(s, k), Failure(s.ops[k].kind, k);
            Enabled(a, e) && Step(a, e) == s.(ops := s.ops[k := s.ops[k].(phase := Done(Failed))])
  {
    var a, e := Begun(s, k), Failure(s.ops[k].kind, k);
    assert Step(a, e).ops == s.ops[k := s.ops[k].(phase := Done(Failed))];
  }

  /** One more update, and the load's answer after it. */
  lemma Overtake(s: State) returns (events: seq<Event>, end: State)
    requires Inv(s) && s.slot.Some? && s.loading.HaveRead?
    requires forall j | 0 <= j < |s.ops| :: s.ops[j].phase.Done?
    ensures OrderlyRun(s, events, end) && !Between(end) && !MemoryHolds(end)
  {
    var k, other := |s.ops|, Value(s.loading.value.n + 1);
    var a := Enqueued(s, Update);
    assert MayBegin(a, k);
    var b := Begun(a, k);
    var c := Changed(b, k, Next(other));
    var d := Wrote(c, k, true);
    var e := Swapped(d, k);
    hide OrderlyRun, Inv;
    assert forall j | 0 <= j < |e.ops| :: !e.ops[j].phase.Swapping?;
    OutOfStep(e, s.loading.value);
    end := Loaded(e);
    OneMore(d, ESwap(k), [ELoaded], end);
    events := [ESwap(k)] + [ELoaded];
    OneMore(c, EWrote(k, true), events, end);
    events := [EWrote(k, true)] + events;
    OneMore(b, EChanged(k, Next(other)), events, end);
    events := [EChanged(k, Next(other))] + events;
    OneMore(a, EBegin(k), events, end);
    events := [EBegin(k)] + events;
    OneMore(s, EEnqueue(Update), events, end);
    events := [EEnqueue(Update)] + events;
  }
}
