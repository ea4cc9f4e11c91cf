/** What completes a block: snapshots with their text, and stops. */
module ClaudeReasoningEnds {
  import opened Wrappers
  import opened Sequences
  import opened ClaudeReasoning
  import opened ClaudeReasoningTraces
  import opened ClaudeReasoningRuns

  predicate SaysText(thinking: Option<string>) {
    thinking.Some? && thinking.value != ""
  }

  /**
   * In every run a snapshot of a known message goes to its block. A thinking block about which nothing
   * was published since the last close is published whole and completed; one that is streaming is
   * completed bare; one completed before, or of another kind, stays silent.
   */
  lemma SnapshotIsPublished(inputs: seq<Input>, id: string, uuid: Option<string>, kind: Option<string>,
                            thinking: Option<string>, offset: nat)
    requires id in LedgerAfter(inputs).messages
    ensures var l := LedgerAfter(inputs);
            var k := SnapshotTarget(l, id, kind);
            var out := Received(l, Snapshot(Some(id), uuid, kind, thinking, offset)).out;
            if k == |l.blocks| || l.blocks[k].kind != "thinking" then out == []
            else
              var key := Api(l.blocks[k].id, l.blocks[k].index);
              var trace := Trace(SinceClose(inputs), key);
              if trace == [] then out == if SaysText(thinking) then [Published(key, thinking.value, true)] else []
              else if trace[|trace| - 1].done then out == []
              else out == [Published(key, "", true)]
  {
    hide SnapshotTarget, Inv, Trace, LedgerAfter, SinceClose;
    RunInv(inputs);
    var l, log := LedgerAfter(inputs), SinceClose(inputs);
    var k := SnapshotTarget(l, id, kind);
    if k < |l.blocks| {
      BlockTrace(l, log, k);
    }
  }

  lemma BlockTrace(l: Ledger, log: seq<Published>, k: nat)
    requires Inv(l, log) && k < |l.blocks|
    ensures var trace := Trace(log, KeyOf(l.blocks[k]));
            match l.blocks[k].status
            case Unseen => trace == []
            case Streaming => trace != [] && !trace[|trace| - 1].done
            case Completed => trace != [] && trace[|trace| - 1].done
  {
    assert BlockOk(l, log, k);
    if l.blocks[k].status == Streaming {
      var trace := Trace(log, KeyOf(l.blocks[k]));
      assert trace[|trace| - 1] in trace;
    }
    hide Inv;
  }

  /** A snapshot of a message never seen is published under its envelope's own identity, if it has one and thinks. */
  lemma UnplacedSnapshot(inputs: seq<Input>, messageId: Option<string>, uuid: Option<string>, kind: Option<string>,
                         thinking: Option<string>, offset: nat)
    requires messageId.None? || messageId.value !in LedgerAfter(inputs).messages
    ensures Received(LedgerAfter(inputs), Snapshot(messageId, uuid, kind, thinking, offset)).out ==
            if uuid.Some? && kind == Some("thinking") && SaysText(thinking)
            then [Published(Envelope(uuid.value, offset), thinking.value, true)] else []
  {
  }

  // ---- Stops ----

  /** The input ends the block: the block stops, its message stops, or the next message starts after its own. */
  predicate Ends(l: Ledger, input: Input, id: string, index: Index) {
    input.Partial? &&
    var named := if input.apiId.Some? then input.apiId else l.current;
    match input.event
    case MessageStart(_) => l.current == Some(id)
    case MessageStop => named == Some(id)
    case BlockStop(stopped) => named == Some(id) && stopped == index
    case _ => false
  }

  lemma MessageEnds(l: Ledger, log: seq<Published>, id: string, index: Index)
    requires Inv(l, log)
    ensures StatusOf(CloseMessage(l, id).ledger, Api(id, index)) != Streaming
  {
    CloseMessageInv(l, log, id);
    FindSame(l.blocks, CloseMessage(l, id).ledger.blocks, id, index);
    hide Inv;
  }

  lemma BlockEnds(l: Ledger, id: string, index: Index)
    ensures StatusOf(CloseAt(l, Find(l.blocks, id, index)).ledger, Api(id, index)) != Streaming
  {
    var k := Find(l.blocks, id, index);
    FindSame(l.blocks, CloseAt(l, k).ledger.blocks, id, index);
    hide Find;
  }

  lemma EndedStatus(l: Ledger, log: seq<Published>, input: Input, id: string, index: Index)
    requires Inv(l, log) && Ends(l, input, id, index)
    ensures StatusOf(Received(l, input).ledger, Api(id, index)) != Streaming
  {
    hide Find, CloseMessage, CloseAt, Inv;
    var known := EnsureMessage(l, id);
    Reframed(l, log, known);
    match input.event {
      case MessageStart(_) => MessageEnds(l, log, id, index);
      case MessageStop => MessageEnds(known, log, id, index);
      case BlockStop(_) => BlockEnds(known, id, index);
    }
  }

  lemma {:induction false} CloseFromOut(l: Ledger, id: string, k: nat)
    requires k <= |l.blocks|
    ensures forall p | p in CloseFrom(l, id, k).out :: p.key.Api? && p.key.id == id && p.text == "" && p.done
    decreases |l.blocks| - k
  {
    if k < |l.blocks| {
      CloseFromOut((if l.blocks[k].id == id then CloseAt(l, k) else Stretch(l, [])).ledger, id, k + 1);
    }
  }

  /** An envelope that brings no thinking completes, bare, only blocks that end, and says nothing else. */
  lemma OnlyEndsComplete(l: Ledger, input: Input)
    requires input.Partial? && !input.event.ThinkingDelta? && !(input.event.BlockStart? && input.event.kind == "thinking")
    ensures forall p | p in Received(l, input).out ::
              p.key.Api? && p.text == "" && p.done && Ends(l, input, p.key.id, p.key.index)
  {
    var named := if input.apiId.Some? then input.apiId else l.current;
    if input.event.MessageStart? {
      if l.current.Some? {
        CloseFromOut(l, l.current.value, 0);
      }
    } else if named.Some? {
      CloseFromOut(EnsureMessage(l, named.value), named.value, 0);
    }
    hide CloseFrom, Find;
  }

  /** In every run a block that ends is completed, if anything was published about it at all. */
  lemma StopsComplete(inputs: seq<Input>, input: Input, id: string, index: Index)
    requires Ends(LedgerAfter(inputs), input, id, index)
    ensures var trace := Trace(SinceClose(inputs + [input]), Api(id, index));
            trace == [] || trace[|trace| - 1].done
  {
    var all := inputs + [input];
    assert all[..|inputs|] == inputs;
    RunInv(inputs);
    RunInv(all);
    EndedStatus(LedgerAfter(inputs), SinceClose(inputs), input, id, index);
    assert LedgerAfter(all) == Received(LedgerAfter(inputs), input).ledger;
    hide Inv, Received, SinceClose, LedgerAfter, Trace;
    StatusTrace(LedgerAfter(all), SinceClose(all), Api(id, index));
  }
}
