/**
 * The activity stream a Codex session emits, and what makes it well formed.
 *
 * A part carries the turn it was reported for. The stream itself names only the item and
 * the index; the turn is kept here so that a turn's end can be compared with its parts.
 */
module CodexActivity {
  import opened Wrappers

  datatype Index = Index(n: int)

  datatype Part = Part(turn: string, item: string, index: Index)

  datatype PartStatus = Streaming | Completed

  datatype EndStatus = EndedCompleted | EndedFailed | EndedInterrupted

  datatype Completion = Answered(text: Option<string>) | Unanswered(error: string)

  datatype Activity =
    | Reasoning(part: Part, text: string, status: PartStatus)
    | TurnInterrupted(turn: string)
    | TurnResult(completion: Completion)
    // The end of one turn, or, with no turn, of whatever was running.
    | TurnEnded(scope: Option<string>, end: EndStatus)

  /** The parts streamed and not yet completed. */
  function Open(log: seq<Activity>): set<Part> {
    if log == [] then {}
    else
      var before, last := Open(log[..|log| - 1]), log[|log| - 1];
      After(before, last)
  }

  function After(open: set<Part>, next: Activity): set<Part> {
    if !next.Reasoning? then open
    else if next.status == Streaming then open + {next.part}
    else open - {next.part}
  }

  /** `next` may follow `log`: text is never replayed, and an end never leaves its parts open. */
  predicate MayFollow(log: seq<Activity>, next: Activity) {
    match next
    case Reasoning(part, text, status) =>
      if status == Streaming then text != "" else (text == "" <==> part in Open(log))
    case TurnEnded(scope, _) =>
      if scope.None? then Open(log) == {} else forall p | p in Open(log) :: p.turn != scope.value
    case _ => true
  }

  ghost predicate Balanced(log: seq<Activity>) {
    forall i | 0 <= i < |log| :: MayFollow(log[..i], log[i])
  }

  lemma Emitted(log: seq<Activity>, next: Activity)
    requires Balanced(log) && MayFollow(log, next)
    ensures Balanced(log + [next])
    ensures Open(log + [next]) == After(Open(log), next)
  {
    var longer := log + [next];
    assert longer[..|log|] == log;
    forall i | 0 <= i < |longer| ensures MayFollow(longer[..i], longer[i]) {
      assert longer[..i] == if i < |log| then log[..i] else log;
    }
  }

  /** `later` continues `earlier` with reasoning only. */
  ghost predicate OnlyReasoning(earlier: seq<Activity>, later: seq<Activity>) {
    earlier <= later && forall i | |earlier| <= i < |later| :: later[i].Reasoning?
  }

  /** `later` continues `earlier` with bare completions of `parts`. */
  ghost predicate OnlyCloses(earlier: seq<Activity>, later: seq<Activity>, parts: set<Part>) {
    earlier <= later && forall i | |earlier| <= i < |later| :: exists p | p in parts :: later[i] == Reasoning(p, "", Completed)
  }
}
