/** Whole runs of the reasoning ledger, closes included: what the display sees of each block. */
module ClaudeReasoningRuns {
  import opened Wrappers
  import opened Sequences
  import opened ClaudeReasoning
  import opened ClaudeReasoningTraces

  function LedgerAfter(inputs: seq<Input>): Ledger {
    if inputs == [] then CLEAR else Received(LedgerAfter(inputs[..|inputs| - 1]), inputs[|inputs| - 1]).ledger
  }

  function OutOf(inputs: seq<Input>): seq<Published>
    requires inputs != []
  {
    Received(LedgerAfter(inputs[..|inputs| - 1]), inputs[|inputs| - 1]).out
  }

  /** Everything published in a run. */
  function LogAfter(inputs: seq<Input>): seq<Published> {
    if inputs == [] then [] else LogAfter(inputs[..|inputs| - 1]) + OutOf(inputs)
  }

  /** What was published since the last close. */
  function SinceClose(inputs: seq<Input>): seq<Published> {
    if inputs == [] || inputs[|inputs| - 1].Close? then [] else SinceClose(inputs[..|inputs| - 1]) + OutOf(inputs)
  }

  /** What was published before and by the last close. */
  function BeforeClose(inputs: seq<Input>): seq<Published> {
    if inputs == [] then []
    else if inputs[|inputs| - 1].Close? then LogAfter(inputs)
    else BeforeClose(inputs[..|inputs| - 1])
  }

  lemma {:induction false} CutAtClose(inputs: seq<Input>)
    ensures LogAfter(inputs) == BeforeClose(inputs) + SinceClose(inputs)
  {
    if inputs != [] {
      var prior := inputs[..|inputs| - 1];
      CutAtClose(prior);
      Regroup(BeforeClose(prior), SinceClose(prior), OutOf(inputs));
    }
  }

  lemma {:induction false} RunInv(inputs: seq<Input>)
    ensures Inv(LedgerAfter(inputs), SinceClose(inputs))
  {
    if inputs == [] || inputs[|inputs| - 1].Close? {
      ClearInv();
    } else {
      RunInv(inputs[..|inputs| - 1]);
      hide Inv, Received;
      ReceivedInv(LedgerAfter(inputs[..|inputs| - 1]), SinceClose(inputs[..|inputs| - 1]), inputs[|inputs| - 1]);
    }
  }

  lemma {:induction false} TraceConcat(a: seq<Published>, b: seq<Published>, key: Key)
    ensures Trace(a + b, key) == Trace(a, key) + Trace(b, key)
  {
    if b == [] {
      assert a + b == a;
    } else {
      var front, last := b[..|b| - 1], b[|b| - 1];
      assert a + b == (a + front) + [last] && b == front + [last];
      TraceConcat(a, front, key);
      TraceSnoc(a + front, last, key);
      TraceSnoc(front, last, key);
    }
  }

  // ---- Which input fills a block ----

  /** The block a partial envelope carries thinking for, and the text. */
  function Carried(l: Ledger, input: Input): Option<(Key, string)> {
    if !input.Partial? then None
    else
      var id := if input.apiId.Some? then input.apiId else l.current;
      match input.event
      case BlockStart(index, kind, thinking) =>
        if id.Some? && kind == "thinking" && thinking.Some? then Some((Api(id.value, index), thinking.value)) else None
      case ThinkingDelta(index, thinking) =>
        if id.Some? && thinking.Some? then Some((Api(id.value, index), thinking.value)) else None
      case _ => None
  }

  /** A new block, or a thinking block not yet completed. */
  predicate Takes(l: Ledger, key: Key) {
    key.Api? &&
    var k := Find(l.blocks, key.id, key.index);
    k < |l.blocks| ==> l.blocks[k].kind == "thinking" && l.blocks[k].status != Completed
  }

  /** The text of an accepted delta for this block, or nothing. */
  function AcceptedText(l: Ledger, input: Input, key: Key): string {
    var carried := Carried(l, input);
    if carried.Some? && carried.value.0 == key && Takes(l, key) then carried.value.1 else ""
  }

  /** An accepted snapshot brings the whole text of a block nothing was streamed of. */
  predicate SnapshotFills(l: Ledger, input: Input, key: Key) {
    && input.Snapshot? && input.messageId.Some? && input.messageId.value in l.messages
    && var k := SnapshotTarget(l, input.messageId.value, input.kind);
       && k < |l.blocks| && KeyOf(l.blocks[k]) == key && l.blocks[k].kind == "thinking" && l.blocks[k].status == Unseen
       && input.thinking.Some? && input.thinking.value != ""
  }

  /** An accepted envelope brings text for this block. */
  predicate Fills(l: Ledger, input: Input, key: Key) {
    AcceptedText(l, input, key) != "" || SnapshotFills(l, input, key)
  }

  // ---- A block is filled exactly when something is published about it ----

  function StatusOf(l: Ledger, key: Key): Status
    requires key.Api?
  {
    var k := Find(l.blocks, key.id, key.index);
    if k < |l.blocks| then l.blocks[k].status else Unseen
  }

  lemma StatusTrace(l: Ledger, log: seq<Published>, key: Key)
    requires Inv(l, log) && key.Api?
    ensures StatusOf(l, key) == Unseen <==> Trace(log, key) == []
    ensures StatusOf(l, key) == Completed <==> Finished(Trace(log, key))
    ensures WellFormed(Trace(log, key))
  {
    var k := Find(l.blocks, key.id, key.index);
    hide Find;
    if k < |l.blocks| {
      assert BlockOk(l, log, k) && KeyOf(l.blocks[k]) == key;
      StreamingIsNotFinished(Trace(log, key));
    } else {
      UnknownTrace(l, log, key);
    }
  }

  lemma UnknownTrace(l: Ledger, log: seq<Published>, key: Key)
    requires Inv(l, log) && key.Api?
    requires forall j | 0 <= j < |l.blocks| :: KeyOf(l.blocks[j]) != key
    ensures Trace(log, key) == []
  {
    assert !Known(l.blocks, key);
  }

  lemma StreamingIsNotFinished(trace: seq<Entry>)
    ensures AllStreaming(trace) ==> !Finished(trace)
  {
    if trace != [] {
      assert trace[|trace| - 1] in trace;
    }
  }

  lemma FindAt(blocks: seq<Block>, k: nat)
    requires Distinct(blocks) && k < |blocks|
    ensures Find(blocks, blocks[k].id, blocks[k].index) == k
  {
    var f := Find(blocks, blocks[k].id, blocks[k].index);
    hide Find;
    assert f <= k && KeyOf(blocks[f]) == KeyOf(blocks[k]);
  }

  lemma {:induction false} FindSame(a: seq<Block>, b: seq<Block>, id: string, index: Index)
    requires SameKeys(a, b)
    ensures Find(a, id, index) == Find(b, id, index)
  {
    var i, j := Find(a, id, index), Find(b, id, index);
    hide Find;
    assert i < |a| ==> KeyOf(a[i]) == KeyOf(b[i]) && IsBlock(b[i], id, index);
    assert j < |b| ==> KeyOf(a[j]) == KeyOf(b[j]) && IsBlock(a[j], id, index);
  }

  /** The same blocks, of which only streaming ones went on, to completed. */
  predicate OnlyClosed(a: seq<Block>, b: seq<Block>) {
    SameKeys(a, b) && forall k | 0 <= k < |a| :: b[k].status == a[k].status || (a[k].status == Streaming && b[k].status == Completed)
  }

  lemma ClosedStatus(l: Ledger, after: Ledger, key: Key)
    requires key.Api? && OnlyClosed(l.blocks, after.blocks)
    ensures StatusOf(after, key) == Unseen <==> StatusOf(l, key) == Unseen
  {
    FindSame(l.blocks, after.blocks, key.id, key.index);
  }

  lemma {:induction false} FoundAtEnd(blocks: seq<Block>, b: Block)
    requires Find(blocks, b.id, b.index) == |blocks|
    ensures Find(blocks + [b], b.id, b.index) == |blocks|
    ensures forall id, index | !IsBlock(b, id, index) && Find(blocks, id, index) == |blocks| ::
      Find(blocks + [b], id, index) == |blocks| + 1
  {
    hide Find;
    var longer := blocks + [b];
    assert forall j | 0 <= j < |blocks| :: longer[j] == blocks[j];
    assert IsBlock(longer[|blocks|], b.id, b.index);
    forall id, index | !IsBlock(b, id, index) && Find(blocks, id, index) == |blocks|
      ensures Find(longer, id, index) == |blocks| + 1
    {
      assert forall j | 0 <= j < |longer| :: !IsBlock(longer[j], id, index);
    }
  }

  lemma FoundBefore(blocks: seq<Block>, b: Block, id: string, index: Index)
    requires Find(blocks, id, index) < |blocks|
    ensures Find(blocks + [b], id, index) == Find(blocks, id, index)
  {
    var f := Find(blocks, id, index);
    hide Find;
    var longer := blocks + [b];
    assert forall j | 0 <= j < |blocks| :: longer[j] == blocks[j];
    assert IsBlock(longer[f], id, index);
  }

  lemma EnsuredStatus(l: Ledger, id: string, index: Index, kind: string, key: Key)
    requires key.Api?
    ensures StatusOf(EnsureBlock(l, id, index, kind), key) == StatusOf(l, key)
  {
    var b := Block(id, index, kind, Unseen, false);
    if Find(l.blocks, id, index) == |l.blocks| {
      FoundAtEnd(l.blocks, b);
      var k := Find(l.blocks, key.id, key.index);
      if k < |l.blocks| {
        FoundBefore(l.blocks, b, key.id, key.index);
      } else if !IsBlock(b, key.id, key.index) {
        assert Find(l.blocks + [b], key.id, key.index) == |l.blocks| + 1;
      }
    }
  }

  lemma PublishedStatus(l: Ledger, k: nat, text: string, status: Status, key: Key)
    requires Distinct(l.blocks) && k < |l.blocks| && key.Api?
    ensures StatusOf(Publish(l, k, text, status).ledger, key) == if KeyOf(l.blocks[k]) == key then status else StatusOf(l, key)
  {
    var after := Publish(l, k, text, status).ledger;
    assert SameKeys(l.blocks, after.blocks);
    FindSame(l.blocks, after.blocks, key.id, key.index);
    FindAt(l.blocks, k);
    hide Find;
    var f := Find(l.blocks, key.id, key.index);
    assert f < |l.blocks| ==> KeyOf(l.blocks[f]) == key;
  }

  /** What a delta does once its block is there. */
  lemma EnsuredDelta(l: Ledger, ensured: Ledger, id: string, index: Index, kind: string, text: Option<string>, key: Key)
    requires Distinct(ensured.blocks) && key.Api?
    requires ensured.blocks == EnsureBlock(l, id, index, kind).blocks && kind == "thinking"
    ensures var d := Delta(ensured, id, index, text);
            var taken := Takes(l, Api(id, index)) && text.Some? && text.value != "";
            && d.out == (if taken then [Published(Api(id, index), text.value, false)] else [])
            && StatusOf(d.ledger, key) == (if taken && key == Api(id, index) then Streaming else StatusOf(l, key))
  {
    EnsuredStatus(l, id, index, kind, key);
    var k := Find(l.blocks, id, index);
    var b := Block(id, index, kind, Unseen, false);
    if k == |l.blocks| {
      FoundAtEnd(l.blocks, b);
    }
    var at := Find(ensured.blocks, id, index);
    assert at < |ensured.blocks| && KeyOf(ensured.blocks[at]) == Api(id, index);
    hide Find, EnsureBlock;
    if Accepts(ensured, at, text) {
      PublishedStatus(ensured, at, text.value, Streaming, key);
    }
  }

  lemma ClosedMessage(l: Ledger, log: seq<Published>, id: string)
    requires Inv(l, log)
    ensures OnlyClosed(l.blocks, CloseMessage(l, id).ledger.blocks)
  {
    CloseMessageInv(l, log, id);
  }

  /** A start that is of another kind only adds its block. */
  lemma OtherStartStatus(l: Ledger, id: string, index: Index, kind: string, thinking: Option<string>, key: Key)
    requires key.Api? && kind != "thinking"
    ensures StatusOf(Streamed(l, id, BlockStart(index, kind, thinking)).ledger, key) == StatusOf(l, key)
  {
    EnsuredStatus(EnsureMessage(l, id), id, index, kind, key);
  }

  /** Thinking for block `index`, in its start or in a delta. */
  lemma ThinkingStatus(l: Ledger, log: seq<Published>, id: string, event: StreamEvent, index: Index, thinking: Option<string>, key: Key)
    requires Inv(l, log) && key.Api?
    requires event == BlockStart(index, "thinking", thinking) || event == ThinkingDelta(index, thinking)
    ensures var d := Streamed(l, id, event);
            var taken := Takes(l, Api(id, index)) && thinking.Some? && thinking.value != "";
            && d.out == (if taken then [Published(Api(id, index), thinking.value, false)] else [])
            && StatusOf(d.ledger, key) == (if taken && key == Api(id, index) then Streaming else StatusOf(l, key))
  {
    var known := EnsureMessage(l, id);
    Reframed(l, log, known);
    EnsureBlockInv(known, log, id, index, "thinking");
    var ensured := EnsureBlock(known, id, index, "thinking");
    assert Distinct(ensured.blocks) && known.blocks == l.blocks;
    hide Inv, Find, Delta, EnsureBlock;
    EnsuredDelta(known, if event.BlockStart? then Activate(ensured, id, index) else ensured, id, index, "thinking", thinking, key);
  }

  /** A stop, or an event of no interest, only closes. */
  lemma StopStatus(l: Ledger, log: seq<Published>, id: string, event: StreamEvent, key: Key)
    requires Inv(l, log) && key.Api? && (event.MessageStop? || event.BlockStop? || event.OtherEvent?)
    ensures StatusOf(Streamed(l, id, event).ledger, key) == Unseen <==> StatusOf(l, key) == Unseen
  {
    var known := EnsureMessage(l, id);
    assert known.blocks == l.blocks;
    Reframed(l, log, known);
    if event.MessageStop? {
      ClosedMessage(known, log, id);
      hide Inv, Find, CloseMessage;
      ClosedStatus(l, Streamed(l, id, event).ledger, key);
    } else if event.BlockStop? {
      var k := Find(known.blocks, id, event.index);
      hide Inv, Find;
      assert OnlyClosed(l.blocks, CloseAt(known, k).ledger.blocks);
      ClosedStatus(l, Streamed(l, id, event).ledger, key);
    }
  }

  lemma StreamedStatus(l: Ledger, log: seq<Published>, id: string, event: StreamEvent, key: Key)
    requires Inv(l, log) && key.Api? && !event.MessageStart?
    ensures StatusOf(Streamed(l, id, event).ledger, key) == Unseen <==>
            StatusOf(l, key) == Unseen && AcceptedText(l, Partial(Some(id), event), key) == ""
  {
    hide Inv, Find, Streamed, Takes;
    match event {
      case BlockStart(index, kind, thinking) =>
        if kind == "thinking" {
          ThinkingStatus(l, log, id, event, index, thinking, key);
        } else {
          OtherStartStatus(l, id, index, kind, thinking, key);
        }
      case ThinkingDelta(index, thinking) => ThinkingStatus(l, log, id, event, index, thinking, key);
      case _ => StopStatus(l, log, id, event, key);
    }
  }

  /** A snapshot of block `k`. */
  lemma SnappedStatus(l: Ledger, log: seq<Published>, k: nat, thinking: Option<string>, key: Key)
    requires Inv(l, log) && key.Api? && k < |l.blocks|
    ensures var fills := KeyOf(l.blocks[k]) == key && l.blocks[k].kind == "thinking" && l.blocks[k].status == Unseen
                         && thinking.Some? && thinking.value != "";
            StatusOf(Snapped(l, k, thinking).ledger, key) == Unseen <==> StatusOf(l, key) == Unseen && !fills
  {
    var claimed := Claimed(l, k);
    ClaimedInv(l, log, k);
    assert OnlyClosed(l.blocks, claimed.blocks) && Distinct(claimed.blocks) && Distinct(l.blocks);
    hide Inv;
    ClosedStatus(l, claimed, key);
    if l.blocks[k].kind == "thinking" {
      if l.blocks[k].status == Unseen && thinking.Some? && thinking.value != "" {
        PublishedStatus(claimed, k, thinking.value, Completed, key);
      } else {
        assert OnlyClosed(claimed.blocks, CloseAt(claimed, k).ledger.blocks);
        ClosedStatus(claimed, CloseAt(claimed, k).ledger, key);
      }
    }
  }

  /** A block leaves `unseen` exactly by being filled. */
  lemma ReceivedStatus(l: Ledger, log: seq<Published>, input: Input, key: Key)
    requires Inv(l, log) && key.Api? && !input.Close?
    ensures StatusOf(Received(l, input).ledger, key) == Unseen <==> StatusOf(l, key) == Unseen && !Fills(l, input, key)
  {
    match input {
      case Snapshot(messageId, uuid, kind, thinking, offset) =>
        hide Inv, Find, Snapped, SnapshotTarget;
        if messageId.Some? && messageId.value in l.messages {
          var k := SnapshotTarget(l, messageId.value, kind);
          if k < |l.blocks| {
            SnappedStatus(l, log, k, thinking, key);
          }
        }
      case Partial(apiId, event) =>
        if event.MessageStart? {
          if l.current.Some? {
            ClosedMessage(l, log, l.current.value);
          }
          hide Inv, Find, CloseMessage;
          assert OnlyClosed(l.blocks, Received(l, input).ledger.blocks);
          ClosedStatus(l, Received(l, input).ledger, key);
        } else {
          var id := if apiId.Some? then apiId else l.current;
          if id.Some? {
            StreamedStatus(l, log, id.value, event, key);
            hide Inv, Find, Streamed, Takes;
            assert Carried(l, input) == Carried(l, Partial(Some(id.value), event));
          }
        }
    }
  }

  // ---- The shape of every trace ----

  /** The input at position `i` fills the block. */
  predicate FillsAt(inputs: seq<Input>, i: nat, key: Key)
    requires i < |inputs|
  {
    Fills(LedgerAfter(inputs[..i]), inputs[i], key)
  }

  /** The block is filled, closed, and filled again. */
  predicate RefilledAt(inputs: seq<Input>, i: nat, j: nat, k: nat, key: Key) {
    i < j < k < |inputs| && FillsAt(inputs, i, key) && inputs[j].Close? && FillsAt(inputs, k, key)
  }

  ghost predicate ReturnsAfterClose(inputs: seq<Input>, key: Key) {
    exists i: nat, j: nat, k: nat :: RefilledAt(inputs, i, j, k, key)
  }

  /** Filled at some point, filled since the last close, and filled before some close. */
  ghost predicate Filled(inputs: seq<Input>, key: Key) {
    exists i: nat | i < |inputs| :: FillsAt(inputs, i, key)
  }

  ghost predicate FilledBefore(inputs: seq<Input>, key: Key) {
    exists i: nat, j: nat :: ClosedAt(inputs, i, j, key)
  }

  predicate ClosedAt(inputs: seq<Input>, i: nat, j: nat, key: Key) {
    i < j < |inputs| && FillsAt(inputs, i, key) && inputs[j].Close?
  }

  lemma PriorFills(inputs: seq<Input>, i: nat, key: Key)
    requires inputs != [] && i < |inputs| - 1
    ensures FillsAt(inputs[..|inputs| - 1], i, key) == FillsAt(inputs, i, key)
  {
    assert inputs[..|inputs| - 1][..i] == inputs[..i];
  }

  lemma FilledStep(inputs: seq<Input>, key: Key)
    requires inputs != []
    ensures var prior := inputs[..|inputs| - 1];
            Filled(inputs, key) <==> Filled(prior, key) || FillsAt(inputs, |inputs| - 1, key)
  {
    hide FillsAt, LedgerAfter, Received;
    var prior := inputs[..|inputs| - 1];
    forall i: nat | i < |prior| ensures FillsAt(prior, i, key) == FillsAt(inputs, i, key) {
      PriorFills(inputs, i, key);
    }
    if Filled(prior, key) {
      var i: nat :| i < |prior| && FillsAt(prior, i, key);
      assert FillsAt(inputs, i, key);
    }
    if Filled(inputs, key) && !FillsAt(inputs, |inputs| - 1, key) {
      var i: nat :| i < |inputs| && FillsAt(inputs, i, key);
      assert i < |prior| && FillsAt(prior, i, key);
    }
  }

  lemma BeforeStep(inputs: seq<Input>, key: Key)
    requires inputs != []
    ensures var prior, last := inputs[..|inputs| - 1], inputs[|inputs| - 1];
            FilledBefore(inputs, key) <==> FilledBefore(prior, key) || (last.Close? && Filled(prior, key))
  {
    hide FillsAt, LedgerAfter, Received;
    var prior, last := inputs[..|inputs| - 1], inputs[|inputs| - 1];
    forall i: nat | i < |prior| ensures FillsAt(prior, i, key) == FillsAt(inputs, i, key) && prior[i] == inputs[i] {
      PriorFills(inputs, i, key);
    }
    if FilledBefore(prior, key) {
      var i: nat, j: nat :| ClosedAt(prior, i, j, key);
      assert ClosedAt(inputs, i, j, key);
    }
    if last.Close? && Filled(prior, key) {
      var i: nat :| i < |prior| && FillsAt(prior, i, key);
      assert ClosedAt(inputs, i, |prior|, key);
    }
    if FilledBefore(inputs, key) {
      var i: nat, j: nat :| ClosedAt(inputs, i, j, key);
      if j < |prior| {
        assert ClosedAt(prior, i, j, key);
      } else {
        assert FillsAt(prior, i, key);
      }
    }
  }

  lemma ReturnStep(inputs: seq<Input>, key: Key)
    requires inputs != []
    ensures var prior := inputs[..|inputs| - 1];
            ReturnsAfterClose(inputs, key) <==>
              ReturnsAfterClose(prior, key) || (FilledBefore(prior, key) && FillsAt(inputs, |inputs| - 1, key))
  {
    hide FillsAt, LedgerAfter, Received;
    var prior := inputs[..|inputs| - 1];
    forall i: nat | i < |prior| ensures FillsAt(prior, i, key) == FillsAt(inputs, i, key) && prior[i] == inputs[i] {
      PriorFills(inputs, i, key);
    }
    if ReturnsAfterClose(prior, key) {
      var i: nat, j: nat, k: nat :| RefilledAt(prior, i, j, k, key);
      assert RefilledAt(inputs, i, j, k, key);
    }
    if FilledBefore(prior, key) && FillsAt(inputs, |inputs| - 1, key) {
      var i: nat, j: nat :| ClosedAt(prior, i, j, key);
      assert RefilledAt(inputs, i, j, |prior|, key);
    }
    if ReturnsAfterClose(inputs, key) {
      var i: nat, j: nat, k: nat :| RefilledAt(inputs, i, j, k, key);
      if k < |prior| {
        assert RefilledAt(prior, i, j, k, key);
      } else {
        assert ClosedAt(prior, i, j, key);
      }
    }
  }

  /** After a close nothing is streaming: what was published is finished. */
  lemma LedgerCloseFinishes(l: Ledger, log: seq<Published>, key: Key)
    requires Inv(l, log) && key.Api?
    ensures var trace := Trace(log + CloseMessages(l, l.messages).out, key);
            && (trace == [] || Finished(trace))
            && (trace == [] <==> Trace(log, key) == [])
  {
    var s := CloseMessages(l, l.messages);
    CloseMessagesInv(l, log, l.messages);
    assert OnlyClosed(l.blocks, s.ledger.blocks);
    hide Inv, CloseMessages, Trace, Finished, OnlyClosed, StatusOf;
    StatusTrace(l, log, key);
    StatusTrace(s.ledger, log + s.out, key);
    CloseCompletesAll(l, log, key);
    ClosedStatus(l, s.ledger, key);
  }

  lemma CloseFinishes(prior: seq<Input>, key: Key)
    requires key.Api?
    ensures var l := LedgerAfter(prior);
            var trace := Trace(SinceClose(prior) + CloseMessages(l, l.messages).out, key);
            && (trace == [] || Finished(trace))
            && (trace == [] <==> Trace(SinceClose(prior), key) == [])
  {
    RunInv(prior);
    hide Inv, CloseMessages, Trace, Finished, LedgerAfter, SinceClose;
    LedgerCloseFinishes(LedgerAfter(prior), SinceClose(prior), key);
  }

  /** An entry that completes, followed by anything, is no trace of one block. */
  lemma DoneThenMore(before: seq<Entry>, more: seq<Entry>)
    requires before != [] && before[|before| - 1].done && more != []
    ensures !WellFormed(before + more)
  {
    var trace := before + more;
    assert trace[|before| - 1].done && trace[|before| - 1] in trace;
    assert trace[..|trace| - 1][|before| - 1] == trace[|before| - 1];
    assert trace[|before| - 1] in trace[..|trace| - 1];
  }

  /** What is known of the trace of a block along a run. */
  ghost predicate TraceOk(inputs: seq<Input>, key: Key) {
    var before, since := Trace(BeforeClose(inputs), key), Trace(SinceClose(inputs), key);
    && Trace(LogAfter(inputs), key) == before + since
    && (before == [] <==> !FilledBefore(inputs, key))
    && (before != [] ==> before[|before| - 1].done)
    && (before == [] && since == [] <==> !Filled(inputs, key))
    && (WellFormed(before + since) <==> !ReturnsAfterClose(inputs, key))
  }

  /** The traces of a closed stretch: `before` is over, `since` is the stretch, `more` its closing. */
  lemma ClosedStretch(before: seq<Entry>, since: seq<Entry>, more: seq<Entry>)
    requires before != [] ==> before[|before| - 1].done
    requires since + more == [] || Finished(since + more)
    requires since + more == [] <==> since == []
    ensures var trace := before + (since + more);
            && (trace != [] ==> trace[|trace| - 1].done)
            && (trace == [] <==> before == [] && since == [])
            && (WellFormed(before + since) <==> WellFormed(trace))
  {
    var trace := before + (since + more);
    if before == [] {
      assert trace == since + more && before + since == since;
      if since != [] {
        assert since == (since + more)[..|since|];
        PrefixWellFormed(since, more);
      }
    } else if since == [] {
      assert trace == before == before + since;
    } else {
      DoneThenMore(before, since);
      DoneThenMore(before, since + more);
      assert trace[|trace| - 1] == (since + more)[|since + more| - 1];
    }
  }

  lemma PrefixWellFormed(since: seq<Entry>, more: seq<Entry>)
    requires since != [] && Finished(since + more)
    ensures WellFormed(since)
  {
    var trace := since + more;
    if more == [] {
      assert trace == since;
    } else {
      forall i | 0 <= i < |since| ensures !since[i].done && since[i].text != "" {
        assert trace[..|trace| - 1][i] == since[i];
      }
    }
  }

  lemma CloseFacts(inputs: seq<Input>, key: Key)
    requires inputs != [] && inputs[|inputs| - 1].Close?
    ensures var prior := inputs[..|inputs| - 1];
            && OutOf(inputs) == CloseMessages(LedgerAfter(prior), LedgerAfter(prior).messages).out
            && LogAfter(inputs) == LogAfter(prior) + OutOf(inputs)
            && BeforeClose(inputs) == LogAfter(inputs) && SinceClose(inputs) == []
            && Trace(SinceClose(inputs), key) == []
            && !FillsAt(inputs, |inputs| - 1, key)
  {
    hide CloseMessages, LedgerAfter;
  }

  lemma CloseTraceOk(inputs: seq<Input>, key: Key)
    requires inputs != [] && inputs[|inputs| - 1].Close? && key.Api? && TraceOk(inputs[..|inputs| - 1], key)
    ensures TraceOk(inputs, key)
  {
    hide LogAfter, BeforeClose, SinceClose, LedgerAfter, CloseMessages, Trace, Filled, FilledBefore, ReturnsAfterClose, FillsAt;
    hide WellFormed, Finished, Received, OutOf;
    CloseFacts(inputs, key);
    var prior := inputs[..|inputs| - 1];
    var out := OutOf(inputs);
    var before, since, more := Trace(BeforeClose(prior), key), Trace(SinceClose(prior), key), Trace(out, key);
    CloseFinishes(prior, key);
    TraceConcat(LogAfter(prior), out, key);
    TraceConcat(SinceClose(prior), out, key);
    FilledStep(inputs, key);
    BeforeStep(inputs, key);
    ReturnStep(inputs, key);
    ClosedStretch(before, since, more);
    var trace := before + (since + more);
    assert Trace(LogAfter(inputs), key) == trace && trace + [] == trace;
  }

  lemma OpenFacts(inputs: seq<Input>, key: Key)
    requires inputs != [] && !inputs[|inputs| - 1].Close? && key.Api?
    ensures var prior := inputs[..|inputs| - 1];
            && BeforeClose(inputs) == BeforeClose(prior) && SinceClose(inputs) == SinceClose(prior) + OutOf(inputs)
            && (Trace(SinceClose(inputs), key) == [] <==>
                  Trace(SinceClose(prior), key) == [] && !FillsAt(inputs, |inputs| - 1, key))
  {
    var prior, last := inputs[..|inputs| - 1], inputs[|inputs| - 1];
    assert LedgerAfter(inputs) == Received(LedgerAfter(prior), last).ledger;
    assert FillsAt(inputs, |inputs| - 1, key) == Fills(LedgerAfter(prior), last, key);
    assert SinceClose(inputs) == SinceClose(prior) + OutOf(inputs);
    hide Inv, Trace, StatusOf, Received, LedgerAfter, Fills, SinceClose, WellFormed, Finished;
    RunInv(prior);
    RunInv(inputs);
    StatusTrace(LedgerAfter(prior), SinceClose(prior), key);
    StatusTrace(LedgerAfter(inputs), SinceClose(inputs), key);
    ReceivedStatus(LedgerAfter(prior), SinceClose(prior), last, key);
  }

  lemma OpenWellFormed(inputs: seq<Input>, key: Key)
    ensures key.Api? ==> WellFormed(Trace(SinceClose(inputs), key))
  {
    hide Inv, Trace, LedgerAfter, SinceClose, WellFormed;
    RunInv(inputs);
    if key.Api? {
      StatusTrace(LedgerAfter(inputs), SinceClose(inputs), key);
    }
  }

  /** A stretch that is still open gets `more` published. */
  lemma OpenStretch(before: seq<Entry>, since: seq<Entry>, more: seq<Entry>)
    requires before != [] ==> before[|before| - 1].done
    requires WellFormed(since + more)
    ensures before == [] ==> WellFormed(before + (since + more))
    ensures before != [] && since + more != [] ==> !WellFormed(before + (since + more))
    ensures before != [] && since != [] ==> !WellFormed(before + since)
    ensures since + more == [] ==> before + (since + more) == before + since
  {
    if before == [] {
      assert before + (since + more) == since + more;
    } else {
      if since + more != [] {
        DoneThenMore(before, since + more);
      }
      if since != [] {
        DoneThenMore(before, since);
      }
    }
  }

  lemma OpenTraceOk(inputs: seq<Input>, key: Key)
    requires inputs != [] && !inputs[|inputs| - 1].Close? && key.Api? && TraceOk(inputs[..|inputs| - 1], key)
    ensures TraceOk(inputs, key)
  {
    hide LogAfter, BeforeClose, SinceClose, LedgerAfter, Trace, Filled, FilledBefore, ReturnsAfterClose, FillsAt;
    hide WellFormed, Received, OutOf;
    var prior, out := inputs[..|inputs| - 1], OutOf(inputs);
    OpenFacts(inputs, key);
    OpenWellFormed(inputs, key);
    CutAtClose(inputs);
    TraceConcat(BeforeClose(inputs), SinceClose(inputs), key);
    TraceConcat(SinceClose(prior), out, key);
    FilledStep(inputs, key);
    BeforeStep(inputs, key);
    ReturnStep(inputs, key);
    OpenStretch(Trace(BeforeClose(prior), key), Trace(SinceClose(prior), key), Trace(out, key));
    NoReturn(prior, key);
  }

  /** Only what was filled before a close can return. */
  lemma NoReturn(inputs: seq<Input>, key: Key)
    ensures ReturnsAfterClose(inputs, key) ==> FilledBefore(inputs, key)
  {
    hide FillsAt;
    if ReturnsAfterClose(inputs, key) {
      var i: nat, j: nat, k: nat :| RefilledAt(inputs, i, j, k, key);
      assert ClosedAt(inputs, i, j, key);
    }
  }

  lemma {:induction false} RunTraceOk(inputs: seq<Input>, key: Key)
    requires key.Api?
    ensures TraceOk(inputs, key)
  {
    if inputs == [] {
      assert [] + Trace([], key) == [];
    } else {
      RunTraceOk(inputs[..|inputs| - 1], key);
      if inputs[|inputs| - 1].Close? {
        CloseTraceOk(inputs, key);
      } else {
        OpenTraceOk(inputs, key);
      }
    }
  }

  /**
   * In every run, closes included, what is published about a block is `streaming* completed?` exactly
   * when no accepted envelope brings text for the block again after a close that followed its text.
   */
  lemma TracesAreWellFormed(inputs: seq<Input>, id: string, index: Index)
    ensures WellFormed(Trace(LogAfter(inputs), Api(id, index))) <==> !ReturnsAfterClose(inputs, Api(id, index))
  {
    RunTraceOk(inputs, Api(id, index));
  }

  /** Since the last close every block is published as `streaming* completed?`. */
  lemma TracesSinceClose(inputs: seq<Input>, id: string, index: Index)
    ensures WellFormed(Trace(SinceClose(inputs), Api(id, index)))
  {
    RunInv(inputs);
    StatusTrace(LedgerAfter(inputs), SinceClose(inputs), Api(id, index));
  }

  /** A close completes every block about which anything was published. */
  lemma CloseLeavesNothingOpen(inputs: seq<Input>, id: string, index: Index)
    ensures var trace := Trace(LogAfter(inputs + [Input.Close]), Api(id, index));
            trace == [] || trace[|trace| - 1].done
  {
    var all := inputs + [Input.Close];
    assert SinceClose(all) == [] && Trace([], Api(id, index)) == [];
    hide LogAfter, BeforeClose, SinceClose, Trace, Filled, FilledBefore, ReturnsAfterClose, WellFormed;
    RunTraceOk(all, Api(id, index));
  }

  /** A block can come back: streamed, closed, and streamed once more. */
  lemma BlockComesBack() returns (inputs: seq<Input>, key: Key)
    ensures key.Api? && ReturnsAfterClose(inputs, key) && !WellFormed(Trace(LogAfter(inputs), key))
  {
    var delta := Partial(Some("message"), ThinkingDelta(Index(0), Some("text")));
    key := Api("message", Index(0));
    inputs := [delta, Input.Close, delta];
    assert inputs[..0] == [] && inputs[..2] == [delta, Input.Close];
    assert LedgerAfter([]) == CLEAR && LedgerAfter([delta, Input.Close]) == CLEAR;
    assert FillsAt(inputs, 0, key) && FillsAt(inputs, 2, key);
    assert RefilledAt(inputs, 0, 1, 2, key);
    hide LogAfter, Trace, FillsAt;
    TracesAreWellFormed(inputs, "message", Index(0));
  }

  // ---- What is streamed is what was said ----

  /**
   * Thinking that arrives for a block not yet completed is streamed word for word, once, and
   * nothing else is published with it; other thinking, and empty text, is dropped.
   */
  lemma DeltasAreVerbatim(inputs: seq<Input>, input: Input)
    requires Carried(LedgerAfter(inputs), input).Some?
    ensures var l, carried := LedgerAfter(inputs), Carried(LedgerAfter(inputs), input).value;
            Received(l, input).out == if Takes(l, carried.0) && carried.1 != "" then [Published(carried.0, carried.1, false)] else []
    ensures var l, carried := LedgerAfter(inputs), Carried(LedgerAfter(inputs), input).value;
            Takes(l, carried.0) <==> !Finished(Trace(SinceClose(inputs), carried.0)) && !OtherKind(l.blocks, carried.0)
  {
    RunInv(inputs);
    var l, log := LedgerAfter(inputs), SinceClose(inputs);
    var key := Carried(l, input).value.0;
    CarriedOut(l, log, input);
    TakesSays(l, log, key);
  }

  predicate OtherKind(blocks: seq<Block>, key: Key) {
    exists k | 0 <= k < |blocks| :: KeyOf(blocks[k]) == key && blocks[k].kind != "thinking"
  }

  lemma TakesSays(l: Ledger, log: seq<Published>, key: Key)
    requires Inv(l, log) && key.Api?
    ensures Takes(l, key) <==> !Finished(Trace(log, key)) && !OtherKind(l.blocks, key)
  {
    StatusTrace(l, log, key);
    var k := Find(l.blocks, key.id, key.index);
    assert Distinct(l.blocks);
    hide Inv, Find, Trace;
    if k < |l.blocks| {
      assert KeyOf(l.blocks[k]) == key;
      if OtherKind(l.blocks, key) {
        var j :| 0 <= j < |l.blocks| && KeyOf(l.blocks[j]) == key && l.blocks[j].kind != "thinking";
        assert j == k;
      }
    } else {
      assert forall j | 0 <= j < |l.blocks| :: KeyOf(l.blocks[j]) != key;
    }
  }

  lemma CarriedOut(l: Ledger, log: seq<Published>, input: Input)
    requires Inv(l, log) && Carried(l, input).Some?
    ensures var carried := Carried(l, input).value;
            && carried.0.Api?
            && Received(l, input).out == if Takes(l, carried.0) && carried.1 != "" then [Published(carried.0, carried.1, false)] else []
  {
    var key := Carried(l, input).value.0;
    hide Inv, Streamed, Takes;
    match input.event
    case BlockStart(index, kind, thinking) => ThinkingStatus(l, log, key.id, input.event, index, thinking, key);
    case ThinkingDelta(index, thinking) => ThinkingStatus(l, log, key.id, input.event, index, thinking, key);
    case _ =>
  }

  /** The text streamed in a trace. */
  function StreamedText(trace: seq<Entry>): string {
    if trace == [] then ""
    else
      var last := trace[|trace| - 1];
      StreamedText(trace[..|trace| - 1]) + if last.done then "" else last.text
  }

  /** The texts of all accepted deltas for this block, in order. */
  function AllAccepted(inputs: seq<Input>, key: Key): string {
    if inputs == [] then ""
    else
      var prior := inputs[..|inputs| - 1];
      AllAccepted(prior, key) + AcceptedText(LedgerAfter(prior), inputs[|inputs| - 1], key)
  }

  lemma {:induction false} StreamedConcat(a: seq<Entry>, b: seq<Entry>)
    ensures StreamedText(a + b) == StreamedText(a) + StreamedText(b)
  {
    if b == [] {
      assert a + b == a;
    } else {
      assert (a + b)[..|a + b| - 1] == a + b[..|b| - 1];
      StreamedConcat(a, b[..|b| - 1]);
    }
  }

  predicate AllDone(out: seq<Published>) {
    forall p | p in out :: p.done
  }

  lemma {:induction false} DoneStreamsNothing(out: seq<Published>, key: Key)
    requires AllDone(out)
    ensures StreamedText(Trace(out, key)) == ""
  {
    if out != [] {
      var front, last := out[..|out| - 1], out[|out| - 1];
      assert last in out && forall p | p in front :: p in out;
      DoneStreamsNothing(front, key);
      StreamedConcat(Trace(front, key), if last.key == key then [Entry(last.text, last.done)] else []);
    }
  }

  lemma {:induction false} CloseFromDone(l: Ledger, id: string, k: nat)
    requires k <= |l.blocks|
    ensures AllDone(CloseFrom(l, id, k).out)
    decreases |l.blocks| - k
  {
    if k < |l.blocks| {
      CloseAtLength(l, k);
      CloseFromDone(if l.blocks[k].id == id then CloseAt(l, k).ledger else l, id, k + 1);
    }
  }

  lemma CloseMessageDone(l: Ledger, id: string)
    ensures AllDone(CloseMessage(l, id).out)
  {
    CloseFromDone(l, id, 0);
  }

  lemma {:induction false} CloseMessagesDone(l: Ledger, ids: seq<string>)
    ensures AllDone(CloseMessages(l, ids).out)
    decreases |ids|
  {
    if ids != [] {
      CloseMessageDone(l, ids[0]);
      CloseMessagesDone(CloseMessage(l, ids[0]).ledger, ids[1..]);
    }
  }

  /** Whatever carries no thinking streams nothing. */
  lemma OtherOut(l: Ledger, input: Input)
    requires Carried(l, input).None?
    ensures AllDone(Received(l, input).out)
  {
    match input
    case Close => CloseMessagesDone(l, l.messages);
    case Snapshot(_, _, _, _, _) =>
    case Partial(apiId, event) =>
      var id := if apiId.Some? then apiId else l.current;
      if event.MessageStart? {
        if l.current.Some? {
          CloseMessageDone(l, l.current.value);
        }
      } else if id.Some? && event.MessageStop? {
        CloseMessageDone(EnsureMessage(l, id.value), id.value);
      }
  }

  /** In every run the streamed text of a block is the concatenation of its accepted deltas. */
  lemma {:induction false} StreamedTextIsAccepted(inputs: seq<Input>, key: Key)
    ensures StreamedText(Trace(LogAfter(inputs), key)) == AllAccepted(inputs, key)
  {
    if inputs != [] {
      var prior, last := inputs[..|inputs| - 1], inputs[|inputs| - 1];
      var l, out := LedgerAfter(prior), OutOf(inputs);
      StreamedTextIsAccepted(prior, key);
      TraceConcat(LogAfter(prior), out, key);
      StreamedConcat(Trace(LogAfter(prior), key), Trace(out, key));
      assert StreamedText(Trace(out, key)) == AcceptedText(l, last, key) by {
        hide Received, LedgerAfter, LogAfter;
        RunInv(prior);
        StepText(l, SinceClose(prior), last, key);
      }
    }
  }

  lemma StepText(l: Ledger, log: seq<Published>, input: Input, key: Key)
    requires Inv(l, log)
    ensures StreamedText(Trace(Received(l, input).out, key)) == AcceptedText(l, input, key)
  {
    hide Inv, Received, Takes;
    var out := Received(l, input).out;
    if Carried(l, input).None? {
      OtherOut(l, input);
      DoneStreamsNothing(out, key);
    } else {
      CarriedOut(l, log, input);
      var carried := Carried(l, input).value;
      if out != [] {
        var e := Entry(carried.1, false);
        assert out[..0] == [] && Trace([], key) == [];
        assert Trace(out, key) == if carried.0 == key then [e] else [];
        assert [e][..0] == [] && StreamedText([e]) == carried.1;
      }
    }
  }
}
