/**
 * Which message and which block are current, and which blocks have had their snapshot, said of the
 * whole run: what a later snapshot or unnamed envelope is taken to be about.
 */
module ClaudeReasoningContext {
  import opened Wrappers
  import opened Sequences
  import opened ClaudeReasoning
  import opened ClaudeReasoningTraces
  import opened ClaudeReasoningRuns
  import opened ClaudeReasoningEnds

  /** The message an envelope is about: the one it names, or else the current one. */
  function About(l: Ledger, input: Input): Option<string>
    requires input.Partial?
  {
    if input.apiId.Some? then input.apiId else l.current
  }

  lemma AfterNext(inputs: seq<Input>)
    requires inputs != []
    ensures LedgerAfter(inputs) == Received(LedgerAfter(inputs[..|inputs| - 1]), inputs[|inputs| - 1]).ledger
  {
  }

  predicate ActiveIs(l: Ledger, id: string, index: Index) {
    id in l.active && l.active[id] == index
  }

  // ---- What each stretch does besides publishing ----

  /** The same blocks with the same claims, possibly followed by new ones without. */
  predicate SameClaims(a: seq<Block>, b: seq<Block>) {
    && |a| <= |b|
    && (forall k | 0 <= k < |a| :: KeyOf(b[k]) == KeyOf(a[k]) && b[k].snapshot == a[k].snapshot)
    && (forall k | |a| <= k < |b| :: !b[k].snapshot)
  }

  lemma SameClaimsTransitive(a: seq<Block>, b: seq<Block>, c: seq<Block>)
    requires SameClaims(a, b) && SameClaims(b, c)
    ensures SameClaims(a, c)
  {
  }

  /** Only block statuses differ, and blocks may have been added. */
  predicate SameContext(l: Ledger, after: Ledger) {
    && after.current == l.current && after.active == l.active && after.messages == l.messages
    && SameClaims(l.blocks, after.blocks)
  }

  lemma SameContextTransitive(a: Ledger, b: Ledger, c: Ledger)
    requires SameContext(a, b) && SameContext(b, c)
    ensures SameContext(a, c)
  {
  }

  lemma BlockContext(l: Ledger, id: string, index: Index, kind: string, thinking: Option<string>)
    ensures SameContext(l, EnsureBlock(l, id, index, kind)) && SameContext(l, Delta(l, id, index, thinking).ledger)
    ensures SameContext(l, CloseAt(l, Find(l.blocks, id, index)).ledger)
  {
    hide Find;
  }

  lemma CloseAtContext(l: Ledger, k: nat)
    requires k <= |l.blocks|
    ensures SameContext(l, CloseAt(l, k).ledger) && |CloseAt(l, k).ledger.blocks| == |l.blocks|
  {
  }

  lemma {:induction false} CloseFromContext(l: Ledger, id: string, k: nat)
    requires k <= |l.blocks|
    ensures SameContext(l, CloseFrom(l, id, k).ledger)
    decreases |l.blocks| - k
  {
    if k < |l.blocks| {
      hide SameContext, CloseAt;
      CloseAtContext(l, k);
      var here := (if l.blocks[k].id == id then CloseAt(l, k) else Stretch(l, [])).ledger;
      CloseFromContext(here, id, k + 1);
      assert SameContext(l, l) by {
        Itself(l);
      }
      SameContextTransitive(l, here, CloseFrom(here, id, k + 1).ledger);
    } else {
      Itself(l);
    }
  }

  lemma Itself(l: Ledger)
    ensures SameContext(l, l)
  {
  }

  /** Closing a message makes none of its blocks active, and changes no other context. */
  lemma CloseMessageContext(l: Ledger, id: string)
    ensures var after := CloseMessage(l, id).ledger;
            && after.current == l.current && after.messages == l.messages && SameClaims(l.blocks, after.blocks)
            && after.active == if id in l.messages then l.active - {id} else l.active
  {
    CloseFromContext(l, id, 0);
    hide CloseFrom;
  }

  /** How an envelope other than a message start moves the context. */
  lemma StreamedContext(l: Ledger, id: string, event: StreamEvent)
    requires !event.MessageStart?
    ensures var after := Streamed(l, id, event).ledger;
            && after.messages == EnsureMessage(l, id).messages && SameClaims(l.blocks, after.blocks)
            && after.current == (if event.MessageStop? && l.current == Some(id) then None else l.current)
            && after.active == match event
                               case MessageStop => l.active - {id}
                               case BlockStart(index, _, _) => l.active[id := index]
                               case BlockStop(index) => if ActiveIs(l, id, index) then l.active - {id} else l.active
                               case _ => l.active
  {
    hide Find, Delta, EnsureBlock, CloseAt, CloseMessage, SameClaims;
    var known := EnsureMessage(l, id);
    match event {
      case MessageStop => CloseMessageContext(known, id);
      case BlockStart(index, kind, thinking) =>
        var begun := EnsureBlock(known, id, index, kind);
        BlockContext(known, id, index, kind, thinking);
        BlockContext(Activate(begun, id, index), id, index, kind, thinking);
        if kind == "thinking" {
          SameClaimsTransitive(known.blocks, begun.blocks, Delta(Activate(begun, id, index), id, index, thinking).ledger.blocks);
        }
      case ThinkingDelta(index, thinking) =>
        var begun := EnsureBlock(known, id, index, "thinking");
        BlockContext(known, id, index, "thinking", thinking);
        BlockContext(begun, id, index, "thinking", thinking);
        SameClaimsTransitive(known.blocks, begun.blocks, Delta(begun, id, index, thinking).ledger.blocks);
      case BlockStop(index) => BlockContext(known, id, index, "", None);
      case OtherEvent => Unclaiming(known.blocks);
    }
  }

  lemma Unclaiming(blocks: seq<Block>)
    ensures SameClaims(blocks, blocks)
  {
  }

  lemma StartedContext(l: Ledger, id: Option<string>)
    ensures var after := Started(l, id).ledger;
            && after.current == id && SameClaims(l.blocks, after.blocks)
            && (forall m | m in l.messages :: m in after.messages)
            && after.active == if l.current.Some? && l.current.value in l.messages then l.active - {l.current.value} else l.active
  {
    Unclaiming(l.blocks);
    if l.current.Some? {
      CloseMessageContext(l, l.current.value);
    }
    hide CloseMessage, SameClaims;
  }

  // ---- The current message ----

  /** The current message is left when the next one starts, when it stops, and on close. */
  predicate Leaves(input: Input, id: string) {
    || input.Close?
    || (input.Partial? && (input.event.MessageStart? || (input.event.MessageStop? && (input.apiId.None? || input.apiId == Some(id)))))
  }

  predicate StartedAt(inputs: seq<Input>, i: nat, id: string) {
    && i < |inputs| && inputs[i].Partial? && inputs[i].event == MessageStart(Some(id))
    && forall j | i < j < |inputs| :: !Leaves(inputs[j], id)
  }

  ghost predicate IsCurrent(inputs: seq<Input>, id: string) {
    exists i: nat :: StartedAt(inputs, i, id)
  }

  lemma IsCurrentNext(inputs: seq<Input>, id: string)
    requires inputs != []
    ensures var last := inputs[|inputs| - 1];
            IsCurrent(inputs, id) <==>
              || (last.Partial? && last.event == MessageStart(Some(id)))
              || (IsCurrent(inputs[..|inputs| - 1], id) && !Leaves(last, id))
  {
    var n := |inputs| - 1;
    var prior := inputs[..n];
    assert forall j | 0 <= j < n :: prior[j] == inputs[j];
    if inputs[n].Partial? && inputs[n].event == MessageStart(Some(id)) {
      assert StartedAt(inputs, n, id);
    } else {
      forall i: nat ensures StartedAt(inputs, i, id) <==> StartedAt(prior, i, id) && !Leaves(inputs[n], id) {
      }
    }
  }

  lemma CurrentNext(l: Ledger, input: Input, id: string)
    ensures Received(l, input).ledger.current == Some(id) <==>
              || (input.Partial? && input.event == MessageStart(Some(id)))
              || (l.current == Some(id) && !Leaves(input, id))
  {
    hide Started, Streamed, SnapshotTarget, SameClaims, Find;
    if input.Partial? {
      var about := About(l, input);
      if input.event.MessageStart? {
        StartedContext(l, input.event.id);
      } else if about.Some? {
        StreamedContext(l, about.value, input.event);
      }
    }
  }

  /** In every run the current message is the one started last, unless it was left since. */
  lemma {:induction false} CurrentIsTheLastStarted(inputs: seq<Input>, id: string)
    ensures LedgerAfter(inputs).current == Some(id) <==> IsCurrent(inputs, id)
  {
    if inputs == [] {
      assert forall i: nat :: !StartedAt(inputs, i, id);
    } else {
      var prior, last := inputs[..|inputs| - 1], inputs[|inputs| - 1];
      CurrentIsTheLastStarted(prior, id);
      IsCurrentNext(inputs, id);
      CurrentNext(LedgerAfter(prior), last, id);
      AfterNext(inputs);
      hide Received, LedgerAfter, IsCurrent;
    }
  }

  // ---- The active block of a message ----

  predicate StartsBlock(l: Ledger, input: Input, id: string) {
    input.Partial? && input.event.BlockStart? && About(l, input) == Some(id)
  }

  /** The active block gives way when another one of its message starts, when it ends, and on close. */
  predicate GivesWay(l: Ledger, input: Input, id: string, index: Index) {
    input.Close? || StartsBlock(l, input, id) || Ends(l, input, id, index)
  }

  predicate BegunAt(inputs: seq<Input>, i: nat, id: string, index: Index) {
    && i < |inputs| && StartsBlock(LedgerAfter(inputs[..i]), inputs[i], id) && inputs[i].event.index == index
    && forall j | i < j < |inputs| :: !GivesWay(LedgerAfter(inputs[..j]), inputs[j], id, index)
  }

  ghost predicate IsActive(inputs: seq<Input>, id: string, index: Index) {
    exists i: nat :: BegunAt(inputs, i, id, index)
  }

  lemma IsActiveNext(inputs: seq<Input>, id: string, index: Index)
    requires inputs != []
    ensures var prior, last := inputs[..|inputs| - 1], inputs[|inputs| - 1];
            var l := LedgerAfter(prior);
            IsActive(inputs, id, index) <==>
              || (StartsBlock(l, last, id) && last.event.index == index)
              || (IsActive(prior, id, index) && !GivesWay(l, last, id, index))
  {
    hide LedgerAfter, Ends, About;
    var n := |inputs| - 1;
    var prior := inputs[..n];
    assert forall j | 0 <= j < n :: prior[j] == inputs[j] && prior[..j] == inputs[..j];
    if StartsBlock(LedgerAfter(prior), inputs[n], id) && inputs[n].event.index == index {
      assert BegunAt(inputs, n, id, index);
    } else {
      forall i: nat
        ensures BegunAt(inputs, i, id, index) <==> BegunAt(prior, i, id, index) && !GivesWay(LedgerAfter(prior), inputs[n], id, index)
      {
      }
    }
  }

  predicate ActiveKnown(l: Ledger) {
    forall id | id in l.active :: id in l.messages
  }

  lemma ActiveNext(l: Ledger, input: Input, id: string, index: Index)
    requires ActiveKnown(l)
    ensures ActiveKnown(Received(l, input).ledger)
    ensures ActiveIs(Received(l, input).ledger, id, index) <==>
              || (StartsBlock(l, input, id) && input.event.index == index)
              || (ActiveIs(l, id, index) && !GivesWay(l, input, id, index))
  {
    hide Started, Streamed, SnapshotTarget, SameClaims, Find;
    if input.Partial? {
      var about := About(l, input);
      if input.event.MessageStart? {
        StartedContext(l, input.event.id);
      } else if about.Some? {
        StreamedContext(l, about.value, input.event);
      }
    }
  }

  /** In every run the active block of a message is the one started last, unless it gave way since. */
  lemma {:induction false} ActiveIsTheLastBegun(inputs: seq<Input>, id: string, index: Index)
    ensures ActiveKnown(LedgerAfter(inputs))
    ensures ActiveIs(LedgerAfter(inputs), id, index) <==> IsActive(inputs, id, index)
  {
    if inputs == [] {
      assert forall i: nat :: !BegunAt(inputs, i, id, index);
    } else {
      var prior, last := inputs[..|inputs| - 1], inputs[|inputs| - 1];
      ActiveIsTheLastBegun(prior, id, index);
      IsActiveNext(inputs, id, index);
      ActiveNext(LedgerAfter(prior), last, id, index);
      AfterNext(inputs);
      hide Received, LedgerAfter, IsActive, ActiveIs, ActiveKnown, GivesWay, StartsBlock;
    }
  }

  // ---- The blocks that have had their snapshot ----

  /** The snapshot is taken to be about this block. */
  predicate Claims(l: Ledger, input: Input, key: Key) {
    && input.Snapshot? && input.messageId.Some? && input.messageId.value in l.messages
    && var k := SnapshotTarget(l, input.messageId.value, input.kind);
       k < |l.blocks| && KeyOf(l.blocks[k]) == key
  }

  predicate ClaimedAt(inputs: seq<Input>, i: nat, key: Key) {
    && i < |inputs| && Claims(LedgerAfter(inputs[..i]), inputs[i], key)
    && forall j | i < j < |inputs| :: !inputs[j].Close?
  }

  ghost predicate IsClaimed(inputs: seq<Input>, key: Key) {
    exists i: nat :: ClaimedAt(inputs, i, key)
  }

  predicate HasClaim(blocks: seq<Block>, key: Key) {
    exists k | 0 <= k < |blocks| :: KeyOf(blocks[k]) == key && blocks[k].snapshot
  }

  lemma IsClaimedNext(inputs: seq<Input>, key: Key)
    requires inputs != []
    ensures var prior, last := inputs[..|inputs| - 1], inputs[|inputs| - 1];
            IsClaimed(inputs, key) <==> Claims(LedgerAfter(prior), last, key) || (IsClaimed(prior, key) && !last.Close?)
  {
    hide LedgerAfter, Claims;
    var n := |inputs| - 1;
    var prior := inputs[..n];
    assert forall j | 0 <= j < n :: prior[j] == inputs[j] && prior[..j] == inputs[..j];
    if Claims(LedgerAfter(prior), inputs[n], key) {
      assert ClaimedAt(inputs, n, key);
    } else {
      forall i: nat ensures ClaimedAt(inputs, i, key) <==> ClaimedAt(prior, i, key) && !inputs[n].Close? {
      }
    }
  }

  lemma SameClaim(a: seq<Block>, b: seq<Block>, key: Key)
    requires SameClaims(a, b)
    ensures HasClaim(b, key) <==> HasClaim(a, key)
  {
    if HasClaim(a, key) {
      var k :| 0 <= k < |a| && KeyOf(a[k]) == key && a[k].snapshot;
      assert KeyOf(b[k]) == key;
    }
    if HasClaim(b, key) {
      var k :| 0 <= k < |b| && KeyOf(b[k]) == key && b[k].snapshot;
      assert k < |a| && KeyOf(a[k]) == key;
    }
  }

  lemma PartialClaims(l: Ledger, input: Input)
    requires input.Partial?
    ensures SameClaims(l.blocks, Received(l, input).ledger.blocks)
  {
    hide Started, Streamed, SameClaims;
    var about := About(l, input);
    if input.event.MessageStart? {
      StartedContext(l, input.event.id);
    } else if about.Some? {
      StreamedContext(l, about.value, input.event);
    } else {
      Unclaiming(l.blocks);
    }
  }

  lemma ClaimNext(l: Ledger, input: Input, key: Key)
    ensures HasClaim(Received(l, input).ledger.blocks, key) <==>
            Claims(l, input, key) || (HasClaim(l.blocks, key) && !input.Close?)
  {
    match input {
      case Partial(_, _) =>
        PartialClaims(l, input);
        SameClaim(l.blocks, Received(l, input).ledger.blocks, key);
      case Snapshot(messageId, _, kind, thinking, _) =>
        if messageId.Some? && messageId.value in l.messages {
          var k := SnapshotTarget(l, messageId.value, kind);
          if k < |l.blocks| {
            SnapClaims(l, k, thinking, key);
          }
        }
      case Close =>
    }
    hide Find, SnapshotTarget, Received;
  }

  lemma SnapClaims(l: Ledger, k: nat, thinking: Option<string>, key: Key)
    requires k < |l.blocks|
    ensures HasClaim(Snapped(l, k, thinking).ledger.blocks, key) <==> KeyOf(l.blocks[k]) == key || HasClaim(l.blocks, key)
  {
    var claimed := Claimed(l, k);
    SameClaim(claimed.blocks, Snapped(l, k, thinking).ledger.blocks, key);
    assert forall j | 0 <= j < |l.blocks| :: KeyOf(claimed.blocks[j]) == KeyOf(l.blocks[j]);
    hide Snapped;
    if KeyOf(l.blocks[k]) == key {
      assert claimed.blocks[k].snapshot;
    } else if HasClaim(l.blocks, key) {
      var j :| 0 <= j < |l.blocks| && KeyOf(l.blocks[j]) == key && l.blocks[j].snapshot;
      assert claimed.blocks[j].snapshot;
    }
  }

  /** In every run a block is claimed exactly when a snapshot was taken to be about it since the last close. */
  lemma {:induction false} ClaimedBySnapshots(inputs: seq<Input>, key: Key)
    ensures HasClaim(LedgerAfter(inputs).blocks, key) <==> IsClaimed(inputs, key)
  {
    if inputs == [] {
      assert forall i: nat :: !ClaimedAt(inputs, i, key);
    } else {
      var prior, last := inputs[..|inputs| - 1], inputs[|inputs| - 1];
      ClaimedBySnapshots(prior, key);
      IsClaimedNext(inputs, key);
      ClaimNext(LedgerAfter(prior), last, key);
      AfterNext(inputs);
      hide Received, LedgerAfter, IsClaimed, HasClaim, Claims;
    }
  }
}
