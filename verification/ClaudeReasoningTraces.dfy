/** What the display sees of each block: `streaming* completed?`, and nothing twice. */
module ClaudeReasoningTraces {
  import opened Wrappers
  import opened Sequences
  import opened ClaudeReasoning

  datatype Entry = Entry(text: string, done: bool)

  /** What was published about one block. */
  function Trace(log: seq<Published>, key: Key): seq<Entry> {
    if log == [] then []
    else
      var last := log[|log| - 1];
      Trace(log[..|log| - 1], key) + (if last.key == key then [Entry(last.text, last.done)] else [])
  }

  predicate AllStreaming(trace: seq<Entry>) {
    forall e | e in trace :: !e.done && e.text != ""
  }

  /** Closed once, with text only if nothing was streamed. */
  predicate Finished(trace: seq<Entry>) {
    && trace != []
    && trace[|trace| - 1].done
    && AllStreaming(trace[..|trace| - 1])
    && (trace[|trace| - 1].text == "" <==> |trace| > 1)
  }

  /** `streaming* completed?` */
  predicate WellFormed(trace: seq<Entry>) {
    AllStreaming(trace) || Finished(trace)
  }

  predicate Follows(status: Status, trace: seq<Entry>) {
    match status
    case Unseen => trace == []
    case Streaming => trace != [] && AllStreaming(trace)
    case Completed => Finished(trace)
  }

  predicate Distinct(blocks: seq<Block>) {
    forall i, j | 0 <= i < j < |blocks| :: KeyOf(blocks[i]) != KeyOf(blocks[j])
  }

  predicate Known(blocks: seq<Block>, key: Key) {
    exists k | 0 <= k < |blocks| :: KeyOf(blocks[k]) == key
  }

  predicate BlockOk(l: Ledger, log: seq<Published>, k: nat)
    requires k < |l.blocks|
  {
    Follows(l.blocks[k].status, Trace(log, KeyOf(l.blocks[k]))) && l.blocks[k].id in l.messages
  }

  ghost predicate NothingElse(l: Ledger, log: seq<Published>) {
    forall key: Key :: key.Api? && !Known(l.blocks, key) ==> Trace(log, key) == []
  }

  /** The ledger knows of every block exactly how far its trace has come since the last close. */
  ghost predicate Inv(l: Ledger, log: seq<Published>) {
    && Distinct(l.blocks)
    && (forall k | 0 <= k < |l.blocks| :: BlockOk(l, log, k))
    && NothingElse(l, log)
  }

  lemma TraceSnoc(log: seq<Published>, p: Published, key: Key)
    ensures Trace(log + [p], key) == Trace(log, key) + (if p.key == key then [Entry(p.text, p.done)] else [])
  {
    assert (log + [p])[..|log|] == log;
  }

  // ---- The stretches ----

  predicate MayPublish(b: Block, text: string, status: Status) {
    match status
    case Unseen => false
    case Streaming => b.status != Completed && text != ""
    case Completed => (b.status == Streaming && text == "") || (b.status == Unseen && text != "")
  }

  lemma TraceFollows(trace: seq<Entry>, from: Status, text: string, to: Status)
    requires Follows(from, trace)
    requires MayPublish(Block("", Index(0), "", from, false), text, to)
    ensures Follows(to, trace + [Entry(text, to == Completed)])
  {
    var longer := trace + [Entry(text, to == Completed)];
    assert longer[..|longer| - 1] == trace;
  }

  /** The same blocks, possibly further along. */
  predicate SameKeys(a: seq<Block>, b: seq<Block>) {
    |a| == |b| && forall k | 0 <= k < |a| :: KeyOf(a[k]) == KeyOf(b[k])
  }

  lemma SameKeysKnown(a: seq<Block>, b: seq<Block>)
    requires SameKeys(a, b)
    ensures Distinct(a) ==> Distinct(b)
    ensures forall key :: Known(a, key) <==> Known(b, key)
  {
    forall key ensures Known(a, key) <==> Known(b, key) {
      if Known(a, key) {
        var k :| 0 <= k < |a| && KeyOf(a[k]) == key;
        assert KeyOf(b[k]) == key;
      }
      if Known(b, key) {
        var k :| 0 <= k < |b| && KeyOf(b[k]) == key;
        assert KeyOf(a[k]) == key;
      }
    }
  }

  lemma PublishInv(l: Ledger, log: seq<Published>, k: nat, text: string, status: Status)
    requires Inv(l, log) && k < |l.blocks| && MayPublish(l.blocks[k], text, status)
    ensures Inv(Publish(l, k, text, status).ledger, log + Publish(l, k, text, status).out)
  {
    var b := l.blocks[k];
    var p := Published(KeyOf(b), text, status == Completed);
    var after := Publish(l, k, text, status).ledger;
    assert BlockOk(l, log, k);
    TraceFollows(Trace(log, KeyOf(b)), b.status, text, status);
    TraceSnoc(log, p, KeyOf(b));
    assert SameKeys(l.blocks, after.blocks);
    SameKeysKnown(l.blocks, after.blocks);
    assert NothingElse(after, log + [p]) by {
      assert Known(l.blocks, KeyOf(b));
      forall key: Key | key.Api? && !Known(after.blocks, key) ensures Trace(log + [p], key) == [] {
        TraceSnoc(log, p, key);
      }
    }
    hide Trace, Follows, Known, NothingElse;
    forall j | 0 <= j < |after.blocks| ensures BlockOk(after, log + [p], j) {
      assert BlockOk(l, log, j);
      TraceSnoc(log, p, KeyOf(l.blocks[j]));
      assert j != k ==> KeyOf(l.blocks[j]) != KeyOf(b);
    }
  }

  lemma CloseAtInv(l: Ledger, log: seq<Published>, k: nat)
    requires Inv(l, log) && k <= |l.blocks|
    ensures Inv(CloseAt(l, k).ledger, log + CloseAt(l, k).out)
  {
    if k < |l.blocks| && l.blocks[k].status == Streaming {
      PublishInv(l, log, k, "", Completed);
    } else {
      assert log + [] == log;
    }
  }

  lemma DeltaInv(l: Ledger, log: seq<Published>, id: string, index: Index, text: Option<string>)
    requires Inv(l, log)
    ensures Inv(Delta(l, id, index, text).ledger, log + Delta(l, id, index, text).out)
  {
    var k := Find(l.blocks, id, index);
    if Accepts(l, k, text) {
      PublishInv(l, log, k, text.value, Streaming);
    } else {
      assert log + [] == log;
    }
  }

  function ClosedBlock(b: Block): Block {
    if b.status == Streaming then b.(status := Completed) else b
  }

  /** A close completes the streaming blocks of its message, and leaves everything else alone. */
  lemma {:induction false} CloseFromShape(l: Ledger, id: string, k: nat)
    requires k <= |l.blocks|
    ensures var after := CloseFrom(l, id, k).ledger;
            && after == l.(blocks := after.blocks) && |after.blocks| == |l.blocks|
            && (forall j | 0 <= j < |l.blocks| ::
                  after.blocks[j] == if k <= j && l.blocks[j].id == id then ClosedBlock(l.blocks[j]) else l.blocks[j])
    decreases |l.blocks| - k
  {
    if k < |l.blocks| {
      var here := if l.blocks[k].id == id then CloseAt(l, k) else Stretch(l, []);
      CloseFromShape(here.ledger, id, k + 1);
    }
  }

  lemma {:induction false} CloseFromInv(l: Ledger, log: seq<Published>, id: string, k: nat)
    requires Inv(l, log) && k <= |l.blocks|
    ensures Inv(CloseFrom(l, id, k).ledger, log + CloseFrom(l, id, k).out)
    decreases |l.blocks| - k
  {
    hide Inv, CloseAt;
    assert log + [] == log;
    if k < |l.blocks| {
      CloseAtInv(l, log, k);
      CloseAtLength(l, k);
      var here := if l.blocks[k].id == id then CloseAt(l, k) else Stretch(l, []);
      CloseFromInv(here.ledger, log + here.out, id, k + 1);
      Regroup(log, here.out, CloseFrom(here.ledger, id, k + 1).out);
    }
  }

  lemma CloseAtLength(l: Ledger, k: nat)
    requires k <= |l.blocks|
    ensures |CloseAt(l, k).ledger.blocks| == |l.blocks|
  {
  }

  /** The parts of the ledger the traces do not look at. */
  lemma Reframed(l: Ledger, log: seq<Published>, after: Ledger)
    requires Inv(l, log) && after.blocks == l.blocks
    requires forall id | id in l.messages :: id in after.messages
    ensures Inv(after, log)
  {
    forall k | 0 <= k < |l.blocks| ensures BlockOk(after, log, k) {
      assert BlockOk(l, log, k);
    }
    assert NothingElse(after, log);
  }

  lemma CloseMessageInv(l: Ledger, log: seq<Published>, id: string)
    requires Inv(l, log)
    ensures var s := CloseMessage(l, id);
            && Inv(s.ledger, log + s.out)
            && s.ledger.messages == l.messages && |s.ledger.blocks| == |l.blocks|
            && (forall j | 0 <= j < |l.blocks| ::
                  s.ledger.blocks[j] == if l.blocks[j].id == id then ClosedBlock(l.blocks[j]) else l.blocks[j])
  {
    assert log + [] == log;
    if id in l.messages {
      var closed := CloseFrom(l, id, 0);
      CloseFromInv(l, log, id, 0);
      CloseFromShape(l, id, 0);
      Reframed(closed.ledger, log + closed.out, CloseMessage(l, id).ledger);
    } else {
      forall k | 0 <= k < |l.blocks| ensures l.blocks[k].id in l.messages {
        assert BlockOk(l, log, k);
      }
    }
  }

  lemma EnsureBlockInv(l: Ledger, log: seq<Published>, id: string, index: Index, kind: string)
    requires Inv(l, log) && id in l.messages
    ensures Inv(EnsureBlock(l, id, index, kind), log)
  {
    if Find(l.blocks, id, index) == |l.blocks| {
      var after := EnsureBlock(l, id, index, kind);
      var key := Api(id, index);
      assert forall j | 0 <= j < |l.blocks| :: KeyOf(l.blocks[j]) != key;
      assert Trace(log, key) == [] by {
        assert !Known(l.blocks, key);
      }
      assert NothingElse(after, log) by {
        forall other: Key | Known(l.blocks, other) ensures Known(after.blocks, other) {
          var j :| 0 <= j < |l.blocks| && KeyOf(l.blocks[j]) == other;
          assert KeyOf(after.blocks[j]) == other;
        }
        assert KeyOf(after.blocks[|l.blocks|]) == key;
      }
      forall j | 0 <= j < |after.blocks| ensures BlockOk(after, log, j) {
        assert j < |l.blocks| ==> BlockOk(l, log, j);
      }
    }
  }

  lemma StreamedInv(l: Ledger, log: seq<Published>, id: string, event: StreamEvent)
    requires Inv(l, log)
    ensures Inv(Streamed(l, id, event).ledger, log + Streamed(l, id, event).out)
  {
    var known := EnsureMessage(l, id);
    Reframed(l, log, known);
    assert log + [] == log;
    hide Inv;
    match event {
      case MessageStop =>
        CloseMessageInv(known, log, id);
        var closed := CloseMessage(known, id);
        Reframed(closed.ledger, log + closed.out, Streamed(l, id, event).ledger);
      case BlockStart(index, kind, thinking) =>
        var ensured := EnsureBlock(known, id, index, kind);
        EnsureBlockInv(known, log, id, index, kind);
        var begun := Activate(ensured, id, index);
        Reframed(ensured, log, begun);
        DeltaInv(begun, log, id, index, thinking);
      case ThinkingDelta(index, thinking) =>
        EnsureBlockInv(known, log, id, index, "thinking");
        DeltaInv(EnsureBlock(known, id, index, "thinking"), log, id, index, thinking);
      case BlockStop(index) =>
        var k := Find(known.blocks, id, index);
        CloseAtInv(known, log, k);
        Reframed(CloseAt(known, k).ledger, log + CloseAt(known, k).out, Streamed(l, id, event).ledger);
      case _ =>
    }
  }

  lemma StartedInv(l: Ledger, log: seq<Published>, id: Option<string>)
    requires Inv(l, log)
    ensures Inv(Started(l, id).ledger, log + Started(l, id).out)
  {
    assert log + [] == log;
    hide Inv;
    var closed := if l.current.Some? then CloseMessage(l, l.current.value) else Stretch(l, []);
    if l.current.Some? {
      CloseMessageInv(l, log, l.current.value);
    }
    Reframed(closed.ledger, log + closed.out, Started(l, id).ledger);
  }

  lemma ClaimedInv(l: Ledger, log: seq<Published>, k: nat)
    requires Inv(l, log) && k < |l.blocks|
    ensures Inv(Claimed(l, k), log)
  {
    var after := Claimed(l, k);
    assert SameKeys(l.blocks, after.blocks);
    SameKeysKnown(l.blocks, after.blocks);
    forall j | 0 <= j < |after.blocks| ensures BlockOk(after, log, j) {
      assert BlockOk(l, log, j);
    }
    assert NothingElse(after, log);
  }

  lemma SnappedInv(l: Ledger, log: seq<Published>, k: nat, thinking: Option<string>)
    requires Inv(l, log) && k < |l.blocks|
    ensures Inv(Snapped(l, k, thinking).ledger, log + Snapped(l, k, thinking).out)
  {
    assert log + [] == log;
    ClaimedInv(l, log, k);
    hide Inv;
    CloseAtInv(Claimed(l, k), log, k);
    if l.blocks[k].kind == "thinking" && l.blocks[k].status == Unseen && thinking.Some? && thinking.value != "" {
      PublishInv(Claimed(l, k), log, k, thinking.value, Completed);
    }
  }

  lemma EnvelopeInv(l: Ledger, log: seq<Published>, p: Published)
    requires Inv(l, log) && p.key.Envelope?
    ensures Inv(l, log + [p])
  {
    forall key: Key ensures key.Api? ==> Trace(log + [p], key) == Trace(log, key) {
      TraceSnoc(log, p, key);
    }
    forall k | 0 <= k < |l.blocks| ensures BlockOk(l, log + [p], k) {
      assert BlockOk(l, log, k);
    }
    assert NothingElse(l, log + [p]);
  }

  lemma ReceivedInv(l: Ledger, log: seq<Published>, input: Input)
    requires Inv(l, log) && !input.Close?
    ensures Inv(Received(l, input).ledger, log + Received(l, input).out)
  {
    assert log + [] == log;
    hide Inv, Streamed, Started, Snapped;
    match input {
      case Partial(apiId, event) =>
        if event.MessageStart? {
          StartedInv(l, log, event.id);
        } else if apiId.Some? {
          StreamedInv(l, log, apiId.value, event);
        } else if l.current.Some? {
          StreamedInv(l, log, l.current.value, event);
        }
      case Snapshot(messageId, uuid, kind, thinking, offset) =>
        if messageId.Some? && messageId.value in l.messages {
          var k := SnapshotTarget(l, messageId.value, kind);
          if k < |l.blocks| {
            SnappedInv(l, log, k, thinking);
          }
        } else if uuid.Some? && thinking.Some? {
          EnvelopeInv(l, log, Published(Envelope(uuid.value, offset), thinking.value, true));
        }
    }
  }

  // ---- Close ----

  lemma {:induction false} CloseMessagesInv(l: Ledger, log: seq<Published>, ids: seq<string>)
    requires Inv(l, log)
    ensures var s := CloseMessages(l, ids);
            && Inv(s.ledger, log + s.out)
            && s.ledger.messages == l.messages && |s.ledger.blocks| == |l.blocks|
            && (forall j | 0 <= j < |l.blocks| ::
                  s.ledger.blocks[j] == if l.blocks[j].id in ids then ClosedBlock(l.blocks[j]) else l.blocks[j])
    decreases |ids|
  {
    assert log + [] == log;
    if ids != [] {
      var first := CloseMessage(l, ids[0]);
      CloseMessageInv(l, log, ids[0]);
      var rest := CloseMessages(first.ledger, ids[1..]);
      hide Inv, CloseMessage;
      CloseMessagesInv(first.ledger, log + first.out, ids[1..]);
      assert (log + first.out) + rest.out == log + (first.out + rest.out);
    }
  }

  /** Closing completes every open block. */
  lemma CloseCompletesAll(l: Ledger, log: seq<Published>, key: Key)
    requires Inv(l, log) && key.Api?
    ensures var trace := Trace(log + CloseMessages(l, l.messages).out, key); trace == [] || Finished(trace)
  {
    var s := CloseMessages(l, l.messages);
    CloseMessagesInv(l, log, l.messages);
    if Known(s.ledger.blocks, key) {
      var k :| 0 <= k < |s.ledger.blocks| && KeyOf(s.ledger.blocks[k]) == key;
      assert BlockOk(l, log, k) && s.ledger.blocks[k] == ClosedBlock(l.blocks[k]);
      assert BlockOk(s.ledger, log + s.out, k);
    }
  }

  lemma ClearInv()
    ensures Inv(CLEAR, [])
  {
  }
}
