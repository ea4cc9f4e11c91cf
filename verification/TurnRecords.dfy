/**
 * Which submissions each native turn answers: the records of a Codex turn manager, as
 * `turn/start` replies, terminals, a protocol failure and stop interleave.
 */
module TurnRecords {
  import opened Wrappers
  import opened CodexActivity

  /** One `turn/start` admission, and the submission it would return. */
  datatype Id = Id(n: nat)

  datatype Settlement =
    | SettledWith(completion: Completion)
    | SettledFailed(error: string)
    | SettledStopped

  datatype Record = Record(members: seq<Id>, completion: Option<Completion>, release: Option<set<Id>>)

  type Turns = map<string, Record>

  datatype Records = Records(
    turns: Turns,
    inFlight: set<Id>,
    next: nat,
    failure: Option<string>,
    stopped: bool,
    submitted: set<Id>,             // admissions answered `submitted`
    attempts: multiset<Id>,         // calls of each submission's settle
    settlement: map<Id, Settlement> // what its first settle said
  )

  const FRESH: Records := Records(map[], {}, 0, None, false, {}, multiset{}, map[])

  // ---- The steps ----

  function Settle(r: Records, who: multiset<Id>, s: Settlement): Records {
    r.(attempts := r.attempts + who,
       settlement := map id | id in r.settlement.Keys + (set m | m in who) ::
         if id in r.settlement then r.settlement[id] else s)
  }

  function Begin(r: Records): Records {
    r.(inFlight := r.inFlight + {Id(r.next)}, next := r.next + 1)
  }

  function RecordOf(turns: Turns, turn: string): Record {
    if turn in turns then turns[turn] else Record([], None, None)
  }

  /** Attach a submission to the turn its reply names, or settle it at once. */
  function Bind(r: Records, turn: string, id: Id): Records {
    var record := RecordOf(r.turns, turn);
    if record.completion.Some? then Settle(r, multiset{id}, SettledWith(record.completion.value))
    else if r.stopped then Settle(r, multiset{id}, SettledStopped)
    else if r.failure.Some? then Settle(r, multiset{id}, SettledFailed(r.failure.value))
    else r.(turns := r.turns[turn := record.(members := record.members + [id])])
  }

  function Without(record: Record, id: Id): Record {
    record.(release := if record.release.Some? then Some(record.release.value - {id}) else None)
  }

  predicate Ready(record: Record) {
    record.completion.Some? && (record.release.Some? ==> record.release.value == {})
  }

  /** An admission has been answered: no record waits for it any more. */
  function Release(r: Records, id: Id): Records {
    r.(inFlight := r.inFlight - {id},
       turns := map t | t in r.turns && !Ready(Without(r.turns[t], id)) :: Without(r.turns[t], id))
  }

  function Reply(r: Records, id: Id, turn: string): Records {
    var bound := Release(Bind(r, turn, id), id);
    bound.(submitted := bound.submitted + {id})
  }

  function Terminal(r: Records, turn: string, completion: Completion): Records {
    var record := RecordOf(r.turns, turn);
    if record.completion.Some? then r
    else
      var settled := Settle(r, multiset(record.members), SettledWith(completion));
      settled.(turns := if r.inFlight == {} then r.turns - {turn}
                        else r.turns[turn := Record([], Some(completion), Some(r.inFlight))])
  }

  function Unfinished(turns: Turns): Turns {
    map t | t in turns && turns[t].completion.None? :: turns[t]
  }

  function Finished(turns: Turns): Turns {
    map t | t in turns && turns[t].completion.Some? :: turns[t]
  }

  ghost function Abandon(r: Records, s: Settlement): Records {
    Settle(r, Members(Unfinished(r.turns)), s).(turns := Finished(r.turns))
  }

  ghost function Fail(r: Records, error: string): Records {
    var first := if r.failure.Some? then r.failure.value else error;
    Abandon(r.(failure := Some(first)), SettledFailed(first))
  }

  function RequestStop(r: Records): Records {
    r.(stopped := true)
  }

  ghost function FinishStop(r: Records): Records {
    Abandon(r, SettledStopped)
  }

  // ---- Members of all records together ----

  /** How often each submission is a member of some record. */
  ghost function Members(turns: Turns): multiset<Id> {
    if turns == map[] then multiset{}
    else
      var t :| t in turns;
      multiset(turns[t].members) + Members(turns - {t})
  }

  lemma {:induction false} MembersSplit(turns: Turns, t: string)
    requires t in turns
    ensures Members(turns) == multiset(turns[t].members) + Members(turns - {t})
    decreases |turns|
  {
    var p :| p in turns && Members(turns) == multiset(turns[p].members) + Members(turns - {p});
    if p != t {
      MembersSplit(turns - {p}, t);
      MembersSplit(turns - {t}, p);
      assert turns - {p} - {t} == turns - {t} - {p};
    }
  }

  lemma MembersUpdate(turns: Turns, t: string, record: Record)
    ensures Members(turns[t := record]) == Members(turns - {t}) + multiset(record.members)
  {
    MembersSplit(turns[t := record], t);
    assert turns[t := record] - {t} == turns - {t};
  }

  /** Records without members do not count, and only members do. */
  lemma {:induction false} MembersSame(turns: Turns, fewer: Turns)
    requires fewer.Keys <= turns.Keys
    requires forall t | t in fewer :: fewer[t].members == turns[t].members
    requires forall t | t in turns && t !in fewer :: turns[t].members == []
    ensures Members(fewer) == Members(turns)
    decreases |turns|
  {
    if turns != map[] {
      var t :| t in turns;
      MembersSplit(turns, t);
      MembersSame(turns - {t}, fewer - {t});
      if t in fewer {
        MembersSplit(fewer, t);
      } else {
        assert fewer - {t} == fewer;
      }
    }
  }

  lemma {:induction false} MembersUnion(turns: Turns, left: Turns)
    requires forall t | t in left :: t in turns && turns[t] == left[t]
    ensures Members(turns) == Members(left) + Members(turns - left.Keys)
    decreases left.Keys
  {
    if left == map[] {
      assert turns - left.Keys == turns;
    } else {
      var t :| t in left;
      MembersUnion(turns - {t}, left - {t});
      assert (turns - {t}) - (left - {t}).Keys == turns - left.Keys;
      MembersStep(turns, left, Members(turns - left.Keys), t);
    }
  }

  lemma MembersStep(turns: Turns, left: Turns, others: multiset<Id>, t: string)
    requires t in turns && t in left && turns[t] == left[t]
    requires Members(turns - {t}) == Members(left - {t}) + others
    ensures Members(turns) == Members(left) + others
  {
    MembersSplit(turns, t);
    MembersSplit(left, t);
  }

  lemma MembersPartition(turns: Turns)
    ensures Members(turns) == Members(Unfinished(turns)) + Members(Finished(turns))
  {
    MembersUnion(turns, Unfinished(turns));
    assert turns - Unfinished(turns).Keys == Finished(turns);
  }

  lemma MembersAdd(turns: Turns, t: string, record: Record, id: Id)
    requires record.members == RecordOf(turns, t).members + [id]
    ensures Members(turns[t := record]) == Members(turns) + multiset{id}
  {
    MembersUpdate(turns, t, record);
    if t in turns {
      MembersSplit(turns, t);
    } else {
      assert turns - {t} == turns;
    }
  }

  lemma {:induction false} NoMembers(turns: Turns)
    requires forall t | t in turns :: turns[t].members == []
    ensures Members(turns) == multiset{}
  {
    MembersSame(turns, map[]);
  }

  // ---- What every step keeps ----

  /** An unfinished record waits for nobody; a finished one has no members left and waits for in-flight admissions only. */
  predicate RecordOk(record: Record, inFlight: set<Id>) {
    if record.completion.None? then record.release.None?
    else record.members == [] && record.release.Some? && record.release.value != {} && record.release.value <= inFlight
  }

  predicate Issued(id: Id, next: nat) {
    id.n < next
  }

  /** Each submission answered `submitted` was settled once or is a member of one record, never both, never twice. */
  ghost predicate Conserved(r: Records) {
    Accounted(r.attempts, Members(r.turns), r.submitted)
  }

  ghost predicate Accounted(attempts: multiset<Id>, members: multiset<Id>, submitted: set<Id>) {
    forall id :: attempts[id] + members[id] == if id in submitted then 1 else 0
  }

  lemma AccountedAdd(attempts: multiset<Id>, members: multiset<Id>, submitted: set<Id>, id: Id)
    requires Accounted(attempts, members, submitted) && id !in submitted
    ensures Accounted(attempts + multiset{id}, members, submitted + {id})
    ensures Accounted(attempts, members + multiset{id}, submitted + {id})
  {
  }

  ghost predicate Shaped(r: Records) {
    && (forall t | t in r.turns :: RecordOk(r.turns[t], r.inFlight))
    && (forall id | id in r.inFlight :: Issued(id, r.next) && id !in r.submitted)
    && (forall id | id in r.submitted :: Issued(id, r.next))
    && (forall id :: id in r.settlement <==> id in r.attempts)
    && (r.failure.Some? ==> forall t | t in r.turns :: r.turns[t].completion.Some?)
  }

  ghost predicate Inv(r: Records) {
    Shaped(r) && Conserved(r)
  }

  lemma FreshInv()
    ensures Inv(FRESH)
  {
  }

  lemma BeginInv(r: Records)
    requires Inv(r)
    ensures Inv(Begin(r)) && Id(r.next) !in r.inFlight + r.submitted
  {
  }

  lemma BindShaped(r: Records, turn: string, id: Id)
    requires Shaped(r) && id in r.inFlight
    ensures Shaped(Bind(r, turn, id))
  {
  }

  lemma ReleaseShaped(r: Records, id: Id)
    requires Shaped(r)
    ensures Shaped(Release(r, id))
  {
  }

  lemma ReplyShaped(r: Records, id: Id, turn: string)
    requires Shaped(r) && id in r.inFlight
    ensures Shaped(Reply(r, id, turn))
  {
    BindShaped(r, turn, id);
    ReleaseShaped(Bind(r, turn, id), id);
  }

  lemma BindConserves(r: Records, turn: string, id: Id)
    requires Conserved(r) && id !in r.submitted
    ensures Accounted(Bind(r, turn, id).attempts, Members(Bind(r, turn, id).turns), r.submitted + {id})
  {
    AccountedAdd(r.attempts, Members(r.turns), r.submitted, id);
    var record := RecordOf(r.turns, turn);
    if record.completion.None? && !r.stopped && r.failure.None? {
      MembersAdd(r.turns, turn, record.(members := record.members + [id]), id);
    }
  }

  /** Letting a record go never loses a member: only finished records go, and they have none. */
  lemma ReleaseConserves(r: Records, id: Id)
    requires forall t | t in r.turns && r.turns[t].completion.Some? :: r.turns[t].members == []
    ensures Members(Release(r, id).turns) == Members(r.turns)
  {
    MembersSame(r.turns, Release(r, id).turns);
  }

  lemma ReplyInv(r: Records, id: Id, turn: string)
    requires Inv(r) && id in r.inFlight
    ensures Inv(Reply(r, id, turn))
  {
    ReplyShaped(r, id, turn);
    BindConserves(r, turn, id);
    BindShaped(r, turn, id);
    ReleaseConserves(Bind(r, turn, id), id);
  }

  lemma ReleaseInv(r: Records, id: Id)
    requires Inv(r)
    ensures Inv(Release(r, id))
  {
    ReleaseShaped(r, id);
    ReleaseConserves(r, id);
  }

  lemma TerminalShaped(r: Records, turn: string, completion: Completion)
    requires Shaped(r)
    ensures Shaped(Terminal(r, turn, completion))
  {
  }

  lemma TerminalMembers(r: Records, turn: string, completion: Completion)
    requires RecordOf(r.turns, turn).completion.None?
    ensures Members(r.turns) == multiset(RecordOf(r.turns, turn).members) + Members(Terminal(r, turn, completion).turns)
  {
    if turn in r.turns {
      MembersSplit(r.turns, turn);
    } else {
      assert r.turns - {turn} == r.turns;
    }
    if r.inFlight != {} {
      MembersUpdate(r.turns, turn, Record([], Some(completion), Some(r.inFlight)));
    }
  }

  lemma TerminalInv(r: Records, turn: string, completion: Completion)
    requires Inv(r)
    ensures Inv(Terminal(r, turn, completion))
  {
    TerminalShaped(r, turn, completion);
    if RecordOf(r.turns, turn).completion.None? {
      TerminalMembers(r, turn, completion);
    }
  }

  lemma AbandonInv(r: Records, s: Settlement)
    requires Inv(r.(failure := None))
    ensures Inv(Abandon(r, s)) && Members(Abandon(r, s).turns) == multiset{}
  {
    MembersPartition(r.turns);
    NoMembers(Finished(r.turns));
  }
}
