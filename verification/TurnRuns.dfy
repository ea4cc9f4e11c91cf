/**
 * Whole runs of the turn records: any interleaving of admissions, replies and their
 * failures, terminals, a protocol failure and stop.
 */
module TurnRuns {
  import opened Wrappers
  import opened CodexActivity
  import opened TurnRecords

  datatype Event =
    | Began
    | Replied(id: Id, turn: string)
    | ReplyFailed(id: Id)
    | Ended(turn: string, completion: Completion)
    | ProtocolFailed(error: string)
    | StopRequested
    | StopResolved

  /** What has been observed, besides what the records keep. */
  datatype History = History(
    first: map<string, Completion>,  // the completion of each turn's first terminal
    known: map<Id, set<string>>,     // the turns already ended when an admission began
    bound: map<Id, string>,          // the turn each reply named
    resolved: bool                   // a stop has resolved
  )

  datatype Run = Run(now: Records, past: History)

  const START: Run := Run(FRESH, History(map[], map[], map[], false))

  /** Submitting is refused after stop or a protocol failure; stop waits for every admission. */
  predicate Enabled(s: Run, e: Event) {
    match e
    case Began => !s.now.stopped && s.now.failure.None?
    case Replied(id, _) => id in s.now.inFlight
    case ReplyFailed(id) => id in s.now.inFlight
    case StopResolved => s.now.stopped && s.now.inFlight == {}
    case _ => true
  }

  ghost function Step(s: Run, e: Event): Run
    requires Enabled(s, e)
  {
    var r, h := s.now, s.past;
    match e
    case Began => Run(Begin(r), h.(known := h.known[Id(r.next) := h.first.Keys]))
    case Replied(id, turn) => Run(Reply(r, id, turn), h.(bound := h.bound[id := turn]))
    case ReplyFailed(id) => Run(Release(r, id), h)
    case Ended(turn, completion) =>
      Run(Terminal(r, turn, completion), if turn in h.first then h else h.(first := h.first[turn := completion]))
    case ProtocolFailed(error) => Run(Fail(r, error), h)
    case StopRequested => Run(RequestStop(r), h)
    case StopResolved => Run(FinishStop(r), h.(resolved := true))
  }

  ghost predicate Reaches(s: Run, events: seq<Event>, end: Run)
    decreases |events|
  {
    if events == [] then s == end
    else Enabled(s, events[0]) && Reaches(Step(s, events[0]), events[1..], end)
  }

  // ---- Every run, whatever the replies name ----

  ghost predicate Safe(s: Run) {
    && Inv(s.now)
    && (s.past.resolved ==> s.now.stopped && s.now.turns == map[] && s.now.inFlight == {})
  }

  lemma StepSafe(s: Run, e: Event)
    requires Safe(s) && Enabled(s, e)
    ensures Safe(Step(s, e))
  {
    match e
    case Began => BeginInv(s.now);
    case Replied(id, turn) => ReplyInv(s.now, id, turn);
    case ReplyFailed(id) => ReleaseInv(s.now, id);
    case Ended(turn, completion) => TerminalInv(s.now, turn, completion);
    case ProtocolFailed(error) =>
      AbandonInv(s.now.(failure := Step(s, e).now.failure), SettledFailed(Step(s, e).now.failure.value));
    case StopRequested =>
    case StopResolved =>
      AbandonInv(s.now, SettledStopped);
      StopLeavesNothing(s.now);
  }

  /** With nothing in flight no finished record is retained, so stop leaves no record at all. */
  lemma StopLeavesNothing(r: Records)
    requires Inv(r) && r.inFlight == {}
    ensures FinishStop(r).turns == map[]
  {
    forall t | t in r.turns ensures r.turns[t].completion.None? {
      assert RecordOk(r.turns[t], r.inFlight);
    }
  }

  lemma {:induction false} RunSafe(s: Run, events: seq<Event>, end: Run)
    requires Safe(s) && Reaches(s, events, end)
    ensures Safe(end)
    decreases |events|
  {
    if events != [] {
      StepSafe(s, events[0]);
      RunSafe(Step(s, events[0]), events[1..], end);
    }
  }

  lemma {:induction false} MemberOfOne(turns: Turns, id: Id)
    requires Members(turns)[id] == 1
    ensures exists t | t in turns ::
              id in turns[t].members && forall u | u in turns && id in turns[u].members :: u == t
    decreases turns.Keys
  {
    if turns != map[] {
      var t :| t in turns;
      MembersSplit(turns, t);
      if id in turns[t].members {
        forall u | u in turns && u != t ensures id !in turns[u].members {
          MembersSplit(turns - {t}, u);
        }
      } else {
        MemberOfOne(turns - {t}, id);
        var only :| only in turns - {t} && id in turns[only].members
                    && forall u | u in turns - {t} && id in turns[u].members :: u == only;
        assert forall u | u in turns && id in turns[u].members :: u == only;
      }
    }
  }

  /**
   * In every run a submission returned as `submitted` is either settled, once, or a member of
   * exactly one record, which has no completion; none is ever settled twice.
   */
  lemma SubmissionsAccountedFor(events: seq<Event>, end: Run, id: Id)
    requires Reaches(START, events, end)
    ensures end.now.attempts[id] <= 1
    ensures id in end.now.submitted ==>
              || (id in end.now.settlement && forall t | t in end.now.turns :: id !in end.now.turns[t].members)
              || (id !in end.now.settlement &&
                  exists t | t in end.now.turns ::
                    && id in end.now.turns[t].members && end.now.turns[t].completion.None?
                    && forall u | u in end.now.turns && id in end.now.turns[u].members :: u == t)
  {
    FreshInv();
    RunSafe(START, events, end);
    var r := end.now;
    if id in r.submitted {
      if id in r.attempts {
        forall t | t in r.turns ensures id !in r.turns[t].members {
          MembersSplit(r.turns, t);
        }
      } else {
        MemberOfOne(r.turns, id);
        var t :| t in r.turns && id in r.turns[t].members && forall u | u in r.turns && id in r.turns[u].members :: u == t;
        assert RecordOk(r.turns[t], r.inFlight);
      }
    }
  }

  /** Once stop resolves every submission is settled and no record is left, for good. */
  lemma StoppedLeavesNothing(events: seq<Event>, end: Run, id: Id)
    requires Reaches(START, events, end) && end.past.resolved
    ensures end.now.turns == map[]
    ensures id in end.now.submitted ==> id in end.now.settlement && end.now.attempts[id] == 1
  {
    FreshInv();
    RunSafe(START, events, end);
    assert Members(end.now.turns) == multiset{};
  }

  /** A finished record is retained only for admissions still in flight, so none outlives them. */
  lemma RetentionIsBounded(events: seq<Event>, end: Run, t: string)
    requires Reaches(START, events, end)
    requires t in end.now.turns && end.now.turns[t].completion.Some?
    ensures end.now.turns[t].release.Some? && {} < end.now.turns[t].release.value <= end.now.inFlight
    ensures end.now.turns[t].members == []
  {
    FreshInv();
    RunSafe(START, events, end);
    assert RecordOk(end.now.turns[t], end.now.inFlight);
  }

  // ---- Runs in which no reply names a turn that ended before its request began ----

  predicate Honest(s: Run, e: Event) {
    e.Replied? ==> e.id in s.past.known && e.turn !in s.past.known[e.id]
  }

  ghost predicate ReachesHonestly(s: Run, events: seq<Event>, end: Run)
    decreases |events|
  {
    if events == [] then s == end
    else Enabled(s, events[0]) && Honest(s, events[0]) && ReachesHonestly(Step(s, events[0]), events[1..], end)
  }

  /** Admission `id` would still find the completion of turn `t`. */
  predicate Retained(s: Run, id: Id, t: string) {
    && t in s.past.first && t in s.now.turns
    && s.now.turns[t].completion == Some(s.past.first[t])
    && s.now.turns[t].release.Some? && id in s.now.turns[t].release.value
  }

  /** A submission settled with a completion got its own turn's first one. */
  predicate Answered(s: Run, id: Id) {
    id in s.now.settlement && s.now.settlement[id].SettledWith? ==>
      && id in s.past.bound && s.past.bound[id] in s.past.first
      && s.now.settlement[id].completion == s.past.first[s.past.bound[id]]
  }

  /** Every admission in flight is new to the replies seen so far. */
  ghost predicate Tracked(s: Run) {
    && (forall id | id in s.now.inFlight :: id in s.past.known && id !in s.past.bound)
    && (forall id | id in s.past.bound :: Issued(id, s.now.next))
  }

  /** No admission in flight can miss the completion of a turn that ended after it began. */
  ghost predicate RetainsAll(s: Run) {
    forall id, t | id in s.now.inFlight && id in s.past.known && t in s.past.first && t !in s.past.known[id] :: Retained(s, id, t)
  }

  ghost predicate AllAnswered(s: Run) {
    forall id :: Answered(s, id)
  }

  /** Records tell finished turns from unfinished ones, and members from the turn they were bound to. */
  ghost predicate Filed(turns: Turns, first: map<string, Completion>, bound: map<Id, string>) {
    && (forall t | t in turns :: t in first <==> turns[t].completion.Some?)
    && (forall t, m | t in turns && m in turns[t].members :: m in bound && bound[m] == t)
  }

  ghost predicate Faithful(s: Run) {
    && Tracked(s)
    && RetainsAll(s)
    && Filed(s.now.turns, s.past.first, s.past.bound)
    && AllAnswered(s)
  }

  predicate Settles(r: Records, id: Id, completion: Completion) {
    id in r.settlement && r.settlement[id] == SettledWith(completion)
  }

  lemma BeganFaithful(s: Run)
    requires Safe(s) && Faithful(s) && Enabled(s, Began)
    ensures Faithful(Step(s, Began))
  {
    var end := Step(s, Began);
    forall id, t | id in end.now.inFlight && t in end.past.first && t !in end.past.known[id] ensures Retained(end, id, t) {
      assert Retained(s, id, t);
    }
    forall id ensures Answered(end, id) {
      assert Answered(s, id);
    }
  }

  lemma RepliedAnswers(s: Run, id: Id, turn: string, other: Id)
    requires Safe(s) && Faithful(s) && Enabled(s, Replied(id, turn)) && Honest(s, Replied(id, turn))
    ensures Answered(Step(s, Replied(id, turn)), other)
    ensures turn in s.past.first ==> Settles(Step(s, Replied(id, turn)).now, id, s.past.first[turn])
  {
    assert Answered(s, other);
    assert id !in s.now.settlement by {
      assert s.now.attempts[id] == 0;
    }
    if turn in s.past.first {
      assert Retained(s, id, turn);
    }
  }

  lemma RepliedRetains(s: Run, id: Id, turn: string, i: Id, t: string)
    requires id in s.now.inFlight && i != id && Retained(s, i, t)
    ensures Retained(Step(s, Replied(id, turn)), i, t)
  {
    assert i in Without(s.now.turns[t], id).release.value;
  }

  lemma RepliedTracked(s: Run, id: Id, turn: string)
    requires Tracked(s) && id in s.now.inFlight && Issued(id, s.now.next)
    ensures Tracked(Step(s, Replied(id, turn)))
    ensures Step(s, Replied(id, turn)).now.inFlight == s.now.inFlight - {id}
    ensures Step(s, Replied(id, turn)).past == s.past.(bound := s.past.bound[id := turn])
  {
  }

  lemma RepliedRetainsAll(s: Run, id: Id, turn: string)
    requires Tracked(s) && RetainsAll(s) && id in s.now.inFlight && Issued(id, s.now.next)
    ensures RetainsAll(Step(s, Replied(id, turn)))
  {
    RepliedTracked(s, id, turn);
    var end := Step(s, Replied(id, turn));
    forall i, t | i in end.now.inFlight && i in end.past.known && t in end.past.first && t !in end.past.known[i]
      ensures Retained(end, i, t)
    {
      RepliedRetains(s, id, turn, i, t);
    }
  }

  lemma RepliedFaithful(s: Run, id: Id, turn: string)
    requires Safe(s) && Faithful(s) && Enabled(s, Replied(id, turn)) && Honest(s, Replied(id, turn))
    ensures Faithful(Step(s, Replied(id, turn)))
    ensures turn in s.past.first ==> Settles(Step(s, Replied(id, turn)).now, id, s.past.first[turn])
  {
    RepliedAnswers(s, id, turn, id);
    RepliedTracked(s, id, turn);
    RepliedRetainsAll(s, id, turn);
    RepliedMembers(s, id, turn);
    assert AllAnswered(Step(s, Replied(id, turn))) by {
      forall i ensures Answered(Step(s, Replied(id, turn)), i) {
        RepliedAnswers(s, id, turn, i);
      }
    }
  }

  lemma BindFiled(s: Run, id: Id, turn: string)
    requires Filed(s.now.turns, s.past.first, s.past.bound) && id !in s.past.bound
    requires turn in s.past.first ==> RecordOf(s.now.turns, turn).completion.Some?
    ensures Filed(Bind(s.now, turn, id).turns, s.past.first, s.past.bound[id := turn])
  {
    assert forall m | m in RecordOf(s.now.turns, turn).members :: m in s.past.bound;
  }

  lemma ReleaseFiled(r: Records, id: Id, first: map<string, Completion>, bound: map<Id, string>)
    requires Filed(r.turns, first, bound)
    ensures Filed(Release(r, id).turns, first, bound)
  {
  }

  lemma RepliedMembers(s: Run, id: Id, turn: string)
    requires Safe(s) && Faithful(s) && Enabled(s, Replied(id, turn)) && Honest(s, Replied(id, turn))
    ensures Filed(Step(s, Replied(id, turn)).now.turns, s.past.first, s.past.bound[id := turn])
  {
    if turn in s.past.first {
      assert Retained(s, id, turn);
    }
    BindFiled(s, id, turn);
    ReleaseFiled(Bind(s.now, turn, id), id, s.past.first, s.past.bound[id := turn]);
  }

  lemma ReleasedFaithful(s: Run, id: Id)
    requires Safe(s) && Faithful(s) && Enabled(s, ReplyFailed(id))
    ensures Faithful(Step(s, ReplyFailed(id)))
  {
    var end := Step(s, ReplyFailed(id));
    forall i, t | i in end.now.inFlight && t in end.past.first && t !in end.past.known[i] ensures Retained(end, i, t) {
      assert Retained(s, i, t);
    }
    forall i ensures Answered(end, i) {
      assert Answered(s, i);
    }
  }

  lemma EndedFiled(s: Run, turn: string, completion: Completion)
    requires Filed(s.now.turns, s.past.first, s.past.bound)
    ensures Filed(Step(s, Ended(turn, completion)).now.turns, Step(s, Ended(turn, completion)).past.first, s.past.bound)
  {
  }

  lemma EndedAnswers(s: Run, turn: string, completion: Completion, id: Id)
    requires Filed(s.now.turns, s.past.first, s.past.bound) && Answered(s, id)
    ensures Answered(Step(s, Ended(turn, completion)), id)
  {
    if id in RecordOf(s.now.turns, turn).members {
      assert s.past.bound[id] == turn;
    }
  }

  lemma EndedRetains(s: Run, turn: string, completion: Completion, id: Id, t: string)
    requires Filed(s.now.turns, s.past.first, s.past.bound) && id in s.now.inFlight
    requires if t in s.past.first then Retained(s, id, t) else t == turn
    ensures Retained(Step(s, Ended(turn, completion)), id, t)
  {
  }

  lemma EndedFaithful(s: Run, turn: string, completion: Completion)
    requires Safe(s) && Faithful(s)
    ensures Faithful(Step(s, Ended(turn, completion)))
  {
    var end := Step(s, Ended(turn, completion));
    EndedFiled(s, turn, completion);
    forall i, t | i in end.now.inFlight && t in end.past.first && t !in end.past.known[i] ensures Retained(end, i, t) {
      EndedRetains(s, turn, completion, i, t);
    }
    forall i ensures Answered(end, i) {
      EndedAnswers(s, turn, completion, i);
    }
  }

  lemma AbandonedFaithful(s: Run, r: Records, settlement: Settlement, h: History)
    requires Faithful(s) && Inv(s.now)
    requires r.turns == s.now.turns && r.inFlight == s.now.inFlight && r.next == s.now.next
    requires r.settlement == s.now.settlement && !settlement.SettledWith?
    requires h.first == s.past.first && h.known == s.past.known && h.bound == s.past.bound
    ensures Faithful(Run(Abandon(r, settlement), h))
  {
    var end := Run(Abandon(r, settlement), h);
    forall i, t | i in end.now.inFlight && t in end.past.first && t !in end.past.known[i] ensures Retained(end, i, t) {
      assert Retained(s, i, t);
    }
    forall i ensures Answered(end, i) {
      assert Answered(s, i);
    }
  }

  lemma StepFaithful(s: Run, e: Event)
    requires Safe(s) && Faithful(s) && Enabled(s, e) && Honest(s, e)
    ensures Faithful(Step(s, e))
  {
    match e
    case Began => BeganFaithful(s);
    case Replied(id, turn) => RepliedFaithful(s, id, turn);
    case ReplyFailed(id) => ReleasedFaithful(s, id);
    case Ended(turn, completion) => EndedFaithful(s, turn, completion);
    case ProtocolFailed(error) =>
      var failure := Step(s, e).now.failure;
      AbandonedFaithful(s, s.now.(failure := failure), SettledFailed(failure.value), s.past);
    case StopRequested =>
      forall i ensures Answered(Step(s, e), i) {
        assert Answered(s, i);
      }
      forall i, t | i in s.now.inFlight && t in s.past.first && t !in s.past.known[i] ensures Retained(Step(s, e), i, t) {
        assert Retained(s, i, t);
      }
    case StopResolved => AbandonedFaithful(s, s.now, SettledStopped, Step(s, e).past);
  }

  lemma {:induction false} RunFaithful(s: Run, events: seq<Event>, end: Run)
    requires Safe(s) && Faithful(s) && ReachesHonestly(s, events, end)
    ensures Safe(end) && Faithful(end)
    decreases |events|
  {
    if events != [] {
      StepSafe(s, events[0]);
      StepFaithful(s, events[0]);
      RunFaithful(Step(s, events[0]), events[1..], end);
    }
  }

  /** All the submissions a turn completes get one and the same completion: its first terminal's. */
  lemma OneCompletionPerTurn(events: seq<Event>, end: Run, a: Id, b: Id)
    requires ReachesHonestly(START, events, end)
    requires a in end.now.settlement && end.now.settlement[a].SettledWith?
    requires b in end.now.settlement && end.now.settlement[b].SettledWith?
    ensures a in end.past.bound && b in end.past.bound && end.past.bound[a] in end.past.first
    ensures end.past.bound[a] == end.past.bound[b] ==> end.now.settlement[a] == end.now.settlement[b]
    ensures end.now.settlement[a].completion == end.past.first[end.past.bound[a]]
  {
    FreshInv();
    RunFaithful(START, events, end);
    assert Answered(end, a) && Answered(end, b);
  }

  /**
   * A terminal that overtakes the reply naming its turn is kept for that reply: the late
   * submission gets the very completion, even after a protocol failure or a stop.
   */
  lemma LateBindingFindsItsCompletion(events: seq<Event>, s: Run, id: Id, turn: string)
    requires ReachesHonestly(START, events, s)
    requires Enabled(s, Replied(id, turn)) && Honest(s, Replied(id, turn)) && turn in s.past.first
    ensures Retained(s, id, turn)
    ensures Settles(Step(s, Replied(id, turn)).now, id, s.past.first[turn])
  {
    FreshInv();
    RunFaithful(START, events, s);
    RepliedFaithful(s, id, turn);
  }

  // ---- Replies that name a turn already over, in runs that report each turn's end once ----

  predicate Once(s: Run, e: Event) {
    e.Ended? ==> e.turn !in s.past.first
  }

  ghost predicate ReachesOnce(s: Run, events: seq<Event>, end: Run)
    decreases |events|
  {
    if events == [] then s == end
    else Enabled(s, events[0]) && Once(s, events[0]) && ReachesOnce(Step(s, events[0]), events[1..], end)
  }

  /** Some admission in flight when turn `t` ended is in flight still. */
  predicate Awaited(s: Run, t: string) {
    exists w :: w in s.now.inFlight && w in s.past.known && t !in s.past.known[w]
  }

  /** The completion of turn `t` is on record. */
  predicate Kept(r: Records, t: string) {
    t in r.turns && r.turns[t].completion.Some?
  }

  /** A finished record waits for admissions that were in flight when its turn ended, and for no other. */
  ghost predicate WaitsExactly(s: Run) {
    && (forall w | w in s.now.inFlight :: w in s.past.known && s.past.known[w] <= s.past.first.Keys)
    && RetainsAll(s)
    && (forall t | Kept(s.now, t) :: t in s.past.first && s.now.turns[t].release.Some?)
    && (forall t, w | Kept(s.now, t) && w in s.now.turns[t].release.value && w in s.past.known :: t !in s.past.known[w])
  }

  lemma BeganWaits(s: Run)
    requires Safe(s) && WaitsExactly(s) && Enabled(s, Began)
    ensures WaitsExactly(Step(s, Began))
  {
    hide Conserved;
    var end := Step(s, Began);
    forall id, t | id in end.now.inFlight && t in end.past.first && t !in end.past.known[id] ensures Retained(end, id, t) {
      assert Retained(s, id, t);
    }
    forall t, w | Kept(end.now, t) && w in end.now.turns[t].release.value ensures t !in end.past.known[w] {
      assert Kept(s.now, t) && RecordOk(s.now.turns[t], s.now.inFlight);
    }
  }

  lemma BindKeeps(r: Records, turn: string, id: Id, t: string)
    ensures Kept(Bind(r, turn, id), t) <==> Kept(r, t)
    ensures Kept(r, t) ==> Bind(r, turn, id).turns[t] == r.turns[t]
    ensures Bind(r, turn, id).inFlight == r.inFlight
  {
  }

  lemma ReleaseWaits(s: Run, r: Records, id: Id, past: History)
    requires WaitsExactly(s) && past.known == s.past.known && past.first == s.past.first
    requires r.inFlight == s.now.inFlight
    requires forall t :: Kept(r, t) <==> Kept(s.now, t)
    requires forall t | Kept(r, t) :: r.turns[t] == s.now.turns[t]
    ensures forall x: set<Id> :: WaitsExactly(Run(Release(r, id).(submitted := x), past))
  {
    forall x: set<Id> ensures WaitsExactly(Run(Release(r, id).(submitted := x), past)) {
      var end := Run(Release(r, id).(submitted := x), past);
      forall i, t | i in end.now.inFlight && t in past.first && t !in past.known[i] ensures Retained(end, i, t) {
        assert Retained(s, i, t);
        assert i in Without(r.turns[t], id).release.value;
      }
    }
  }

  lemma EndedRetainsAll(s: Run, turn: string, completion: Completion)
    requires WaitsExactly(s) && turn !in s.past.first
    ensures RetainsAll(Step(s, Ended(turn, completion)))
  {
    var end := Step(s, Ended(turn, completion));
    assert !Kept(s.now, turn);
    forall i, t | i in end.now.inFlight && t in end.past.first && t !in end.past.known[i] ensures Retained(end, i, t) {
      assert t != turn ==> Retained(s, i, t);
    }
  }

  lemma EndedWaits(s: Run, turn: string, completion: Completion)
    requires WaitsExactly(s) && turn !in s.past.first
    ensures WaitsExactly(Step(s, Ended(turn, completion)))
  {
    EndedRetainsAll(s, turn, completion);
    var end := Step(s, Ended(turn, completion));
    forall t, w | Kept(end.now, t) && w in end.now.turns[t].release.value && w in end.past.known ensures t !in end.past.known[w] {
      assert t != turn ==> Kept(s.now, t);
    }
  }

  lemma AbandonedWaits(s: Run, r: Records, settlement: Settlement, past: History)
    requires WaitsExactly(s) && r.turns == s.now.turns && r.inFlight == s.now.inFlight
    requires past.known == s.past.known && past.first == s.past.first
    ensures WaitsExactly(Run(r, past)) && WaitsExactly(Run(Abandon(r, settlement), past))
  {
    forall i, t | i in r.inFlight && t in past.first && t !in past.known[i]
      ensures Retained(Run(r, past), i, t) && Retained(Run(Abandon(r, settlement), past), i, t)
    {
      assert Retained(s, i, t);
    }
    assert forall t :: Kept(r, t) <==> Kept(s.now, t);
    assert forall t :: Kept(Abandon(r, settlement), t) <==> Kept(s.now, t);
  }

  lemma StepWaits(s: Run, e: Event)
    requires Safe(s) && WaitsExactly(s) && Enabled(s, e) && Once(s, e)
    ensures WaitsExactly(Step(s, e))
  {
    var past := Step(s, e).past;
    match e
    case Began => BeganWaits(s);
    case Replied(id, turn) =>
      forall t {
        BindKeeps(s.now, turn, id, t);
      }
      ReleaseWaits(s, Bind(s.now, turn, id), id, past);
    case ReplyFailed(id) =>
      ReleaseWaits(s, s.now, id, past);
      assert Release(s.now, id).(submitted := s.now.submitted) == Release(s.now, id);
    case Ended(turn, completion) => EndedWaits(s, turn, completion);
    case ProtocolFailed(error) =>
      var failure := Step(s, e).now.failure;
      AbandonedWaits(s, s.now.(failure := failure), SettledFailed(failure.value), past);
    case StopRequested => AbandonedWaits(s, RequestStop(s.now), SettledStopped, past);
    case StopResolved => AbandonedWaits(s, s.now, SettledStopped, past);
  }

  lemma {:induction false} RunWaits(s: Run, events: seq<Event>, end: Run)
    requires Safe(s) && WaitsExactly(s) && ReachesOnce(s, events, end)
    ensures Safe(end) && WaitsExactly(end)
    decreases |events|
  {
    if events != [] {
      StepSafe(s, events[0]);
      StepWaits(s, events[0]);
      RunWaits(Step(s, events[0]), events[1..], end);
    }
  }

  lemma KeptIsAwaited(s: Run, t: string)
    requires Safe(s) && WaitsExactly(s) && Kept(s.now, t)
    ensures Awaited(s, t)
  {
    assert RecordOk(s.now.turns[t], s.now.inFlight);
    var w :| w in s.now.turns[t].release.value;
  }

  lemma InFlightUnsettled(s: Run, id: Id)
    requires Safe(s) && id in s.now.inFlight
    ensures id !in s.now.settlement
  {
    assert s.now.attempts[id] == 0;
  }

  /** A reply settles its submission at once, or leaves it a member of a record without completion. */
  lemma ReplySettles(s: Run, id: Id, turn: string)
    requires Enabled(s, Replied(id, turn)) && id !in s.now.settlement
    ensures var end := Step(s, Replied(id, turn)).now;
            if Kept(s.now, turn) then Settles(end, id, s.now.turns[turn].completion.value)
            else if s.now.stopped || s.now.failure.Some? then id in end.settlement && !end.settlement[id].SettledWith?
            else id !in end.settlement && turn in end.turns && id in end.turns[turn].members && end.turns[turn].completion.None?
  {
  }

  /**
   * Whatever turn a reply names, its submission is settled at once exactly when that turn's
   * completion is still kept (and then with it) or input is refused by a stop or a failure;
   * the completion is kept only for admissions in flight. Otherwise the submission stays with
   * a record that has no completion.
   */
  lemma BindingIsSettledExactly(events: seq<Event>, s: Run, id: Id, turn: string)
    requires Reaches(START, events, s) && Enabled(s, Replied(id, turn))
    ensures var end := Step(s, Replied(id, turn)).now;
            && (id in end.settlement <==> Kept(s.now, turn) || s.now.stopped || s.now.failure.Some?)
            && (Kept(s.now, turn) ==>
                  && Settles(end, id, s.now.turns[turn].completion.value)
                  && s.now.turns[turn].release.Some? && {} < s.now.turns[turn].release.value <= s.now.inFlight)
            && (id !in end.settlement ==>
                  turn in end.turns && id in end.turns[turn].members && end.turns[turn].completion.None?)
  {
    FreshInv();
    RunSafe(START, events, s);
    InFlightUnsettled(s, id);
    ReplySettles(s, id, turn);
    if Kept(s.now, turn) {
      RetentionIsBounded(events, s, turn);
    }
  }

  /**
   * A reply that names a turn already over gets that turn's completion exactly when an
   * admission in flight at the turn's end, this one or another, is in flight still.
   */
  lemma StaleReplyIsAnsweredExactly(events: seq<Event>, s: Run, id: Id, turn: string)
    requires ReachesOnce(START, events, s)
    requires Enabled(s, Replied(id, turn)) && turn in s.past.first
    ensures var end := Step(s, Replied(id, turn)).now;
            && (Awaited(s, turn) ==> Settles(end, id, s.past.first[turn]))
            && (id in end.settlement <==> Awaited(s, turn) || s.now.stopped || s.now.failure.Some?)
            && (id in end.settlement && end.settlement[id].SettledWith? ==> Awaited(s, turn))
  {
    FreshInv();
    RunWaits(START, events, s);
    InFlightUnsettled(s, id);
    ReplySettles(s, id, turn);
    if Awaited(s, turn) {
      var w :| w in s.now.inFlight && w in s.past.known && turn !in s.past.known[w];
      assert Retained(s, w, turn);
    }
    if Kept(s.now, turn) {
      KeptIsAwaited(s, turn);
    }
  }

  /** Without that promise about replies a submission can be left to a turn that is already over. */
  lemma StaleReplyIsLeftBehind(completion: Completion)
    ensures exists events, end ::
              && Reaches(START, events, end)
              && Id(0) in end.now.submitted && Id(0) !in end.now.settlement
              && "turn" in end.past.first && end.past.bound == map[Id(0) := "turn"]
  {
    var events := [Ended("turn", completion), Began, Replied(Id(0), "turn")];
    var s1 := Step(START, events[0]);
    var s2 := Step(s1, events[1]);
    var s3 := Step(s2, events[2]);
    assert Reaches(s3, [], s3);
    assert events[2..][1..] == [] && events[1..][1..] == events[2..];
    assert Reaches(s2, events[2..], s3);
    assert Reaches(s1, events[1..], s3);
    assert Reaches(START, events, s3);
  }
}
