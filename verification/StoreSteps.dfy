/**
 * The transactional store: one file, one loader, one committed value in memory, and a promise tail
 * on which every change waits for its predecessor. Every event is one stretch between two awaits.
 */
module StoreSteps {
  import opened Wrappers

  datatype Value = Value(n: int)

  /** What the file decodes to; `None` is a missing file. */
  type File = Option<Value>

  datatype Kind = Update | Create(value: Value, replace: bool) | Remove(next: Value)

  /** A change that failed, one that changed nothing, and commits whose `afterCommit` passed or threw. */
  datatype Outcome = Failed | Unchanged | Committed | CommittedButFailed

  datatype Phase =
    | Waiting
    | AwaitingLoad
    | Changing(current: Value)
    | Writing(saw: Option<Value>, next: Value)
    | Unlinking(next: Value)
    | Swapping(saw: Option<Value>, next: Value) // the file is written, memory is not yet
    | AfterCommit
    | Done(outcome: Outcome)

  datatype Op = Op(kind: Kind, prev: Option<nat>, phase: Phase)

  datatype Loading = NotLoading | Reading | HaveRead(value: Value)

  datatype Commit = Commit(op: nat, saw: Option<Value>, value: Value, file: File)

  datatype State = State(
    absent: Value, // what the owner's loader makes of a missing file
    first: File,   // the file before the first event
    file: File,
    slot: Option<Value>,
    loading: Loading,
    ops: seq<Op>,
    tail: Option<nat>,
    history: seq<Commit>)

  function Initial(absent: Value, file: File): State {
    State(absent, file, file, None, NotLoading, [], None, [])
  }

  function Meaning(s: State, file: File): Value {
    if file.Some? then file.value else s.absent
  }

  function At(s: State, i: nat, phase: Phase): State
    requires i < |s.ops|
  {
    s.(ops := s.ops[i := s.ops[i].(phase := phase)])
  }

  // ---- load() ----

  function LoadCalled(s: State): State {
    if s.slot.Some? || s.loading != NotLoading then s else s.(loading := Reading)
  }

  /** How an operation goes on once it has the loaded value. */
  function WithValue(op: Op, value: Value): Op {
    match op.kind
    case Update => op.(phase := Changing(value))
    case Create(_, _) => op
    case Remove(next) => op.(phase := Unlinking(next))
  }

  function Resumed(ops: seq<Op>, value: Value): (r: seq<Op>)
    ensures |r| == |ops|
    ensures forall i | 0 <= i < |ops| :: r[i] == if ops[i].phase == AwaitingLoad then WithValue(ops[i], value) else ops[i]
  {
    seq(|ops|, i requires 0 <= i < |ops| => if ops[i].phase == AwaitingLoad then WithValue(ops[i], value) else ops[i])
  }

  function Rejected(ops: seq<Op>): (r: seq<Op>)
    ensures |r| == |ops|
    ensures forall i | 0 <= i < |ops| :: r[i] == if ops[i].phase == AwaitingLoad then ops[i].(phase := Done(Failed)) else ops[i]
  {
    seq(|ops|, i requires 0 <= i < |ops| => if ops[i].phase == AwaitingLoad then ops[i].(phase := Done(Failed)) else ops[i])
  }

  function Read(s: State, ok: bool): State {
    if ok then s.(loading := HaveRead(Meaning(s, s.file))) else s.(loading := NotLoading, ops := Rejected(s.ops))
  }

  function Loaded(s: State): State
    requires s.loading.HaveRead?
  {
    s.(slot := Some(s.loading.value), loading := NotLoading, ops := Resumed(s.ops, s.loading.value))
  }

  // ---- The tail ----

  function Enqueued(s: State, kind: Kind): State {
    s.(ops := s.ops + [Op(kind, s.tail, Waiting)], tail := Some(|s.ops|))
  }

  predicate Settled(s: State, i: nat) {
    i < |s.ops| && s.ops[i].phase.Done?
  }

  predicate MayBegin(s: State, i: nat) {
    i < |s.ops| && s.ops[i].phase == Waiting && (s.ops[i].prev.Some? ==> Settled(s, s.ops[i].prev.value))
  }

  function Begun(s: State, i: nat): State
    requires i < |s.ops|
  {
    var op := s.ops[i];
    if op.kind.Create? then At(s, i, Writing(None, op.kind.value))
    else if s.slot.Some? then s.(ops := s.ops[i := WithValue(op, s.slot.value)])
    else At(LoadCalled(s), i, AwaitingLoad)
  }

  // ---- One operation ----

  datatype Change = Threw | Same | Next(value: Value)

  function Changed(s: State, i: nat, change: Change): State
    requires i < |s.ops| && s.ops[i].phase.Changing?
  {
    match change
    case Threw => At(s, i, Done(Failed))
    case Same => At(s, i, Done(Unchanged))
    case Next(value) => At(s, i, Writing(Some(s.ops[i].phase.current), value))
  }

  /** A create that may not replace fails on any file that is there. */
  predicate Clobbers(s: State, i: nat)
    requires i < |s.ops|
  {
    s.ops[i].kind.Create? && !s.ops[i].kind.replace && s.file.Some?
  }

  function Wrote(s: State, i: nat, ok: bool): State
    requires i < |s.ops| && s.ops[i].phase.Writing?
  {
    var p := s.ops[i].phase;
    if ok && !Clobbers(s, i) then At(s, i, Swapping(p.saw, p.next)).(file := Some(p.next)) else At(s, i, Done(Failed))
  }

  function Unlinked(s: State, i: nat, ok: bool): State
    requires i < |s.ops| && s.ops[i].phase.Unlinking?
  {
    if ok then At(s, i, Swapping(None, s.ops[i].phase.next)).(file := None) else At(s, i, Done(Failed))
  }

  function FileOf(kind: Kind, next: Value): File {
    if kind.Remove? then None else Some(next)
  }

  function Swapped(s: State, i: nat): State
    requires i < |s.ops| && s.ops[i].phase.Swapping?
  {
    var op, p := s.ops[i], s.ops[i].phase;
    At(s, i, if op.kind.Remove? then Done(Committed) else AfterCommit).(
      slot := Some(p.next), history := s.history + [Commit(i, p.saw, p.next, FileOf(op.kind, p.next))])
  }

  function Finished(s: State, i: nat, ok: bool): State
    requires i < |s.ops|
  {
    At(s, i, Done(if ok then Committed else CommittedButFailed))
  }

  // ---- Runs ----

  datatype Event =
    | ELoad
    | ERead(ok: bool)
    | ELoaded
    | EEnqueue(kind: Kind)
    | EBegin(i: nat)
    | EChanged(i: nat, change: Change)
    | EWrote(i: nat, ok: bool)
    | EUnlinked(i: nat, ok: bool)
    | ESwap(i: nat)
    | EFinished(i: nat, ok: bool)

  predicate Enabled(s: State, e: Event) {
    match e
    case ELoad => true
    case ERead(_) => s.loading == Reading
    case ELoaded => s.loading.HaveRead?
    case EEnqueue(_) => true
    case EBegin(i) => MayBegin(s, i)
    case EChanged(i, _) => i < |s.ops| && s.ops[i].phase.Changing?
    case EWrote(i, _) => i < |s.ops| && s.ops[i].phase.Writing?
    case EUnlinked(i, _) => i < |s.ops| && s.ops[i].phase.Unlinking?
    case ESwap(i) => i < |s.ops| && s.ops[i].phase.Swapping?
    case EFinished(i, _) => i < |s.ops| && s.ops[i].phase == AfterCommit
  }

  function Step(s: State, e: Event): State
    requires Enabled(s, e)
  {
    match e
    case ELoad => LoadCalled(s)
    case ERead(ok) => Read(s, ok)
    case ELoaded => Loaded(s)
    case EEnqueue(kind) => Enqueued(s, kind)
    case EBegin(i) => Begun(s, i)
    case EChanged(i, change) => Changed(s, i, change)
    case EWrote(i, ok) => Wrote(s, i, ok)
    case EUnlinked(i, ok) => Unlinked(s, i, ok)
    case ESwap(i) => Swapped(s, i)
    case EFinished(i, ok) => Finished(s, i, ok)
  }

  ghost predicate Reaches(s: State, events: seq<Event>, end: State)
    decreases |events|
  {
    if events == [] then s == end
    else Enabled(s, events[0]) && Reaches(Step(s, events[0]), events[1..], end)
  }

  /**
   * What the callers owe: no load is in flight when a create commits, because `create` does not
   * join it, and a removal leaves the value that a missing file means.
   */
  predicate Orderly(s: State, e: Event)
    requires Enabled(s, e)
  {
    e.ESwap? ==>
      match s.ops[e.i].kind
      case Update => true
      case Create(_, _) => s.loading == NotLoading
      case Remove(next) => next == s.absent
  }

  ghost predicate OrderlyRun(s: State, events: seq<Event>, end: State)
    decreases |events|
  {
    if events == [] then s == end
    else Enabled(s, events[0]) && Orderly(s, events[0]) && OrderlyRun(Step(s, events[0]), events[1..], end)
  }
}
