/** What the transactional store commits is what it was asked to, in every run. */
module StoreAnswers {
  import opened Wrappers
  import opened StoreSteps
  import opened StoreRuns

  /** What the callers' change functions answered for operation `i`, in order. */
  function Changes(events: seq<Event>, i: nat): seq<Change> {
    if events == [] then []
    else
      var last := events[|events| - 1];
      Changes(events[..|events| - 1], i) + if last.EChanged? && last.i == i then [last.change] else []
  }

  /** An update carries the one value its change returned; a create and a removal carry their own. */
  predicate Carried(kind: Kind, value: Value, changes: seq<Change>) {
    match kind
    case Update => changes == [Next(value)]
    case Create(given, _) => value == given && changes == []
    case Remove(given) => value == given && changes == []
  }

  predicate OpAsked(op: Op, changes: seq<Change>) {
    match op.phase
    case Writing(_, next) => Carried(op.kind, next, changes)
    case Swapping(_, next) => Carried(op.kind, next, changes)
    case AfterCommit => true
    case Done(_) => true
    case _ => changes == []
  }

  predicate CommitAsked(c: Commit, kind: Kind, changes: seq<Change>) {
    Carried(kind, c.value, changes) && c.file == if kind.Remove? then None else Some(c.value)
  }

  ghost predicate Asked(s: State, events: seq<Event>) {
    && (forall i: nat | i < |s.ops| :: OpAsked(s.ops[i], Changes(events, i)))
    && (forall i: nat | |s.ops| <= i :: Changes(events, i) == [])
    && (forall k | 0 <= k < |s.history| :: CommitOk(s, events, k))
  }

  predicate CommitOk(s: State, events: seq<Event>, k: nat)
    requires k < |s.history|
  {
    s.history[k].op < |s.ops| && CommitAsked(s.history[k], s.ops[s.history[k].op].kind, Changes(events, s.history[k].op))
  }

  lemma ChangesNext(events: seq<Event>, e: Event, i: nat)
    ensures Changes(events + [e], i) == Changes(events, i) + if e.EChanged? && e.i == i then [e.change] else []
  {
    assert (events + [e])[..|events|] == events;
  }

  /** Operations are never dropped, keep their kind, and answer a change only while one is asked for. */
  lemma OpNext(s: State, e: Event, i: nat, changes: seq<Change>)
    requires Enabled(s, e) && i < |s.ops| && KindOk(s.ops[i]) && OpAsked(s.ops[i], changes)
    ensures i < |Step(s, e).ops| && Step(s, e).ops[i].kind == s.ops[i].kind
    ensures OpAsked(Step(s, e).ops[i], changes + if e.EChanged? && e.i == i then [e.change] else [])
  {
    hide Meaning, Clobbers;
    assert changes + [] == changes;
    if e.EChanged? && e.i == i {
      assert changes + [e.change] == [e.change];
    }
  }

  lemma KindsOk(s: State)
    requires Inv(s)
    ensures forall i | 0 <= i < |s.ops| :: KindOk(s.ops[i])
  {
    forall i | 0 <= i < |s.ops| ensures KindOk(s.ops[i]) {
      assert FileOk(s, s.ops[i]);
    }
  }

  lemma OpsGrow(s: State, e: Event)
    requires Enabled(s, e)
    ensures |s.ops| <= |Step(s, e).ops|
    ensures forall i | |s.ops| <= i < |Step(s, e).ops| :: Step(s, e).ops[i].phase == Waiting
    ensures !e.ESwap? ==> Step(s, e).history == s.history
  {
    hide Meaning;
  }

  lemma CommitNext(s: State, events: seq<Event>, e: Event, k: nat)
    requires Inv(s) && Enabled(s, e) && Asked(s, events) && k < |Step(s, e).history|
    ensures CommitOk(Step(s, e), events + [e], k)
  {
    OpsGrow(s, e);
    KindsOk(s);
    if k < |s.history| {
      assert CommitOk(s, events, k) && IsCommitted(s.ops[s.history[k].op].phase);
      OpNext(s, e, s.history[k].op, Changes(events, s.history[k].op));
      ChangesNext(events, e, s.history[k].op);
      hide Inv, Asked, Changes, Meaning;
    } else {
      assert OpAsked(s.ops[e.i], Changes(events, e.i));
      ChangesNext(events, e, e.i);
      hide Inv, Asked, Changes, Meaning;
    }
  }

  lemma StepAsked(s: State, events: seq<Event>, e: Event)
    requires Inv(s) && Enabled(s, e) && Asked(s, events)
    ensures Asked(Step(s, e), events + [e])
  {
    OpsGrow(s, e);
    KindsOk(s);
    forall i: nat ensures Changes(events + [e], i) == Changes(events, i) + if e.EChanged? && e.i == i then [e.change] else [] {
      ChangesNext(events, e, i);
    }
    forall i: nat | i < |Step(s, e).ops| ensures OpAsked(Step(s, e).ops[i], Changes(events + [e], i)) {
      if i < |s.ops| {
        OpNext(s, e, i, Changes(events, i));
      }
    }
    forall k | 0 <= k < |Step(s, e).history| ensures CommitOk(Step(s, e), events + [e], k) {
      CommitNext(s, events, e, k);
    }
    hide Inv, Step, Changes, OpAsked, CommitOk;
  }

  lemma {:induction false} RunAsked(s: State, past: seq<Event>, events: seq<Event>, end: State)
    requires Inv(s) && Asked(s, past) && Reaches(s, events, end)
    ensures Asked(end, past + events) && Inv(end)
    decreases |events|
  {
    if events == [] {
      assert past + events == past;
    } else {
      StepInv(s, events[0]);
      StepAsked(s, past, events[0]);
      RunAsked(Step(s, events[0]), past + [events[0]], events[1..], end);
      assert past + [events[0]] + events[1..] == past + events;
    }
  }

  /**
   * In every run each commit carries what was asked for: an update the very value that its change
   * function returned, once, and a create or a removal its own; and that is what the file was made to hold.
   */
  lemma CommitsWhatWasAsked(absent: Value, file: File, events: seq<Event>, s: State, k: nat)
    requires Reaches(Initial(absent, file), events, s) && k < |s.history|
    ensures var c := s.history[k];
            && c.op < |s.ops|
            && match s.ops[c.op].kind
               case Update => Changes(events, c.op) == [Next(c.value)] && c.file == Some(c.value)
               case Create(value, _) => c.value == value && c.file == Some(value)
               case Remove(value) => c.value == value && c.file == None
  {
    RunAsked(Initial(absent, file), [], events, s);
    assert [] + events == events;
    assert CommitOk(s, events, k);
  }
}
