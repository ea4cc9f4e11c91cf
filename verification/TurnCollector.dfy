/** Per-turn item buffers and the bounded memory of turns already reported as ended. */
module TurnCollector {
  import opened CodexCompletion

  const TERMINAL_TURN_ID_LIMIT := 1024

  predicate Distinct(s: seq<string>) {
    forall i, j | 0 <= i < j < |s| :: s[i] != s[j]
  }

  /** The last `n` of `s`, or all of it. */
  function LastOf(s: seq<string>, n: nat): seq<string> {
    if |s| <= n then s else s[|s| - n..]
  }

  function Remember(window: seq<string>, turn: string): seq<string> {
    if turn in window then window else LastOf(window + [turn], TERMINAL_TURN_ID_LIMIT)
  }

  function RememberAll(window: seq<string>, turns: seq<string>): seq<string> {
    if turns == [] then window else Remember(RememberAll(window, turns[..|turns| - 1]), turns[|turns| - 1])
  }

  /** A terminal reported again is recognised as long as fewer than the limit were reported since. */
  lemma {:induction false} WindowRecognises(window: seq<string>, turn: string, since: seq<string>)
    requires |window| <= TERMINAL_TURN_ID_LIMIT && turn !in window
    requires |since| < TERMINAL_TURN_ID_LIMIT
    ensures turn in RememberAll(Remember(window, turn), since)
  {
    var position := WindowPosition(Remember(window, turn), since, |Remember(window, turn)| - 1);
    assert RememberAll(Remember(window, turn), since)[position] == turn;
  }

  /** Each later terminal moves an entry at most one place towards the front. */
  lemma {:induction false} WindowPosition(window: seq<string>, since: seq<string>, i: nat) returns (j: nat)
    requires i < |window| <= TERMINAL_TURN_ID_LIMIT
    requires |since| + |window| - 1 - i < TERMINAL_TURN_ID_LIMIT
    ensures j < |RememberAll(window, since)| <= TERMINAL_TURN_ID_LIMIT
    ensures RememberAll(window, since)[j] == window[i]
    ensures |RememberAll(window, since)| - 1 - j <= |since| + |window| - 1 - i
  {
    if since == [] {
      j := i;
    } else {
      j := WindowPosition(window, since[..|since| - 1], i);
      var before := RememberAll(window, since[..|since| - 1]);
      if since[|since| - 1] !in before && |before| == TERMINAL_TURN_ID_LIMIT {
        j := j - 1;
      }
    }
  }

  class TurnCollector {
    var itemsByTurn: map<string, seq<ThreadItem>>
    var terminalTurnIds: seq<string>
    var closed: bool

    ghost predicate Valid()
      reads this
    {
      && Distinct(terminalTurnIds) && |terminalTurnIds| <= TERMINAL_TURN_ID_LIMIT
      && (closed ==> itemsByTurn == map[] && terminalTurnIds == [])
    }

    constructor ()
      ensures Valid() && !closed && itemsByTurn == map[] && terminalTurnIds == []
    {
      itemsByTurn := map[];
      terminalTurnIds := [];
      closed := false;
    }

    /** False for a turn already remembered; otherwise the oldest turns give way to it. */
    method RememberTerminal(turn: string) returns (isNew: bool)
      requires Valid() && !closed
      modifies this`terminalTurnIds
      ensures Valid()
      ensures isNew == (turn !in old(terminalTurnIds))
      ensures terminalTurnIds == Remember(old(terminalTurnIds), turn)
    {
      if turn in terminalTurnIds {
        return false;
      }
      terminalTurnIds := terminalTurnIds + [turn];
      ghost var all := terminalTurnIds;
      while |terminalTurnIds| > TERMINAL_TURN_ID_LIMIT
        invariant Distinct(all) && |terminalTurnIds| <= |all| <= TERMINAL_TURN_ID_LIMIT + 1
        invariant terminalTurnIds == all[|all| - |terminalTurnIds|..]
        invariant terminalTurnIds == all || |terminalTurnIds| == TERMINAL_TURN_ID_LIMIT
      {
        terminalTurnIds := terminalTurnIds[1..];
      }
      return true;
    }

    method AddItem(turn: string, item: ThreadItem)
      requires Valid() && !closed
      modifies this`itemsByTurn
      ensures Valid()
      ensures itemsByTurn == old(itemsByTurn)[turn := (if turn in old(itemsByTurn) then old(itemsByTurn)[turn] else []) + [item]]
    {
      var bucket := if turn in itemsByTurn then itemsByTurn[turn] else [];
      itemsByTurn := itemsByTurn[turn := bucket + [item]];
    }

    method ReleaseTurn(turn: string)
      requires Valid()
      modifies this`itemsByTurn
      ensures Valid() && itemsByTurn == old(itemsByTurn) - {turn}
    {
      itemsByTurn := itemsByTurn - {turn};
    }

    method Dispose()
      requires Valid()
      modifies this
      ensures Valid() && closed
    {
      if !closed {
        closed := true;
        itemsByTurn := map[];
        terminalTurnIds := [];
      }
    }
  }
}
