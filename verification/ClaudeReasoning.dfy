/**
 * Live reasoning of a Claude Code session. Partial envelopes stream the text of a message block;
 * a snapshot or a stop completes it. The blocks of all messages are kept in one list, in the order
 * in which they were first seen.
 */
module ClaudeReasoning {
  import opened Wrappers

  datatype Index = Index(n: int)

  /** What a publication is about: a block of an API message, or a position in one envelope. */
  datatype Key = Api(id: string, index: Index) | Envelope(uuid: string, offset: nat)

  datatype Status = Unseen | Streaming | Completed

  datatype Block = Block(id: string, index: Index, kind: string, status: Status, snapshot: bool)

  datatype Published = Published(key: Key, text: string, done: bool)

  /** `open` gives the active block of each message; messages keep the order of their arrival. */
  datatype Ledger = Ledger(messages: seq<string>, active: map<string, Index>, blocks: seq<Block>, current: Option<string>)

  const CLEAR := Ledger([], map[], [], None)

  datatype Stretch = Stretch(ledger: Ledger, out: seq<Published>)

  // ---- What arrives ----

  datatype StreamEvent =
    | MessageStart(id: Option<string>)
    | MessageStop
    | BlockStart(index: Index, kind: string, thinking: Option<string>)
    | ThinkingDelta(index: Index, thinking: Option<string>)
    | BlockStop(index: Index)
    | OtherEvent

  /** Empty identifiers and texts are read as absent, as are fields of the wrong type. */
  datatype Input =
    | Partial(apiId: Option<string>, event: StreamEvent)
    | Snapshot(messageId: Option<string>, uuid: Option<string>, kind: Option<string>, thinking: Option<string>, offset: nat)
    | Close

  // ---- The ledger ----

  predicate IsBlock(b: Block, id: string, index: Index) {
    b.id == id && b.index == index
  }

  function KeyOf(b: Block): Key {
    Api(b.id, b.index)
  }

  /** Where a block is, or the length of the list. */
  function Find(blocks: seq<Block>, id: string, index: Index): (k: nat)
    ensures k <= |blocks|
    ensures k < |blocks| ==> IsBlock(blocks[k], id, index)
    ensures forall j | 0 <= j < k :: !IsBlock(blocks[j], id, index)
  {
    if blocks == [] then 0
    else if IsBlock(blocks[0], id, index) then 0
    else 1 + Find(blocks[1..], id, index)
  }

  function EnsureMessage(l: Ledger, id: string): Ledger {
    if id in l.messages then l else l.(messages := l.messages + [id])
  }

  function EnsureBlock(l: Ledger, id: string, index: Index, kind: string): Ledger {
    if Find(l.blocks, id, index) < |l.blocks| then l
    else l.(blocks := l.blocks + [Block(id, index, kind, Unseen, false)])
  }

  function Publish(l: Ledger, k: nat, text: string, status: Status): Stretch
    requires k < |l.blocks|
  {
    Stretch(l.(blocks := l.blocks[k := l.blocks[k].(status := status)]),
            [Published(KeyOf(l.blocks[k]), text, status == Completed)])
  }

  predicate Accepts(l: Ledger, k: nat, text: Option<string>) {
    k < |l.blocks| && l.blocks[k].kind == "thinking" && l.blocks[k].status != Completed && text.Some? && text.value != ""
  }

  function Delta(l: Ledger, id: string, index: Index, text: Option<string>): Stretch {
    var k := Find(l.blocks, id, index);
    if Accepts(l, k, text) then Publish(l, k, text.value, Streaming) else Stretch(l, [])
  }

  function CloseAt(l: Ledger, k: nat): Stretch
    requires k <= |l.blocks|
  {
    if k < |l.blocks| && l.blocks[k].status == Streaming then Publish(l, k, "", Completed) else Stretch(l, [])
  }

  /** Close the streaming blocks of one message from position `k` on. */
  function CloseFrom(l: Ledger, id: string, k: nat): Stretch
    requires k <= |l.blocks|
    decreases |l.blocks| - k
  {
    if k == |l.blocks| then Stretch(l, [])
    else
      var here := if l.blocks[k].id == id then CloseAt(l, k) else Stretch(l, []);
      var rest := CloseFrom(here.ledger, id, k + 1);
      Stretch(rest.ledger, here.out + rest.out)
  }

  function CloseMessage(l: Ledger, id: string): Stretch {
    if id !in l.messages then Stretch(l, [])
    else
      var closed := CloseFrom(l, id, 0);
      Stretch(closed.ledger.(active := closed.ledger.active - {id}), closed.out)
  }

  /** Close every message in the order of arrival. */
  function CloseMessages(l: Ledger, ids: seq<string>): Stretch
    decreases |ids|
  {
    if ids == [] then Stretch(l, [])
    else
      var first := CloseMessage(l, ids[0]);
      var rest := CloseMessages(first.ledger, ids[1..]);
      Stretch(rest.ledger, first.out + rest.out)
  }

  // ---- Partial envelopes ----

  function Activate(l: Ledger, id: string, index: Index): Ledger {
    l.(active := l.active[id := index])
  }

  function Started(l: Ledger, id: Option<string>): Stretch {
    var closed := if l.current.Some? then CloseMessage(l, l.current.value) else Stretch(l, []);
    var moved := closed.ledger.(current := id);
    Stretch(if id.Some? then EnsureMessage(moved, id.value) else moved, closed.out)
  }

  function Streamed(l: Ledger, id: string, event: StreamEvent): Stretch {
    var known := EnsureMessage(l, id);
    match event
    case MessageStop =>
      var closed := CloseMessage(known, id);
      Stretch(if closed.ledger.current == Some(id) then closed.ledger.(current := None) else closed.ledger, closed.out)
    case BlockStart(index, kind, thinking) =>
      var begun := Activate(EnsureBlock(known, id, index, kind), id, index);
      if kind == "thinking" then Delta(begun, id, index, thinking) else Stretch(begun, [])
    case ThinkingDelta(index, thinking) => Delta(EnsureBlock(known, id, index, "thinking"), id, index, thinking)
    case BlockStop(index) =>
      var closed := CloseAt(known, Find(known.blocks, id, index));
      Stretch(if id in known.active && known.active[id] == index then closed.ledger.(active := closed.ledger.active - {id})
              else closed.ledger, closed.out)
    case _ => Stretch(known, [])
  }

  // ---- Snapshots ----

  predicate Matches(b: Block, id: string, kind: Option<string>) {
    b.id == id && kind == Some(b.kind)
  }

  /** The first matching block without a snapshot, or else the last matching one. */
  function Unclaimed(blocks: seq<Block>, id: string, kind: Option<string>): (k: nat)
    ensures k <= |blocks|
    ensures k < |blocks| ==> Matches(blocks[k], id, kind) && !blocks[k].snapshot
    ensures forall j | 0 <= j < k :: !(Matches(blocks[j], id, kind) && !blocks[j].snapshot)
  {
    if blocks == [] then 0
    else if Matches(blocks[0], id, kind) && !blocks[0].snapshot then 0
    else 1 + Unclaimed(blocks[1..], id, kind)
  }

  function LastMatch(blocks: seq<Block>, id: string, kind: Option<string>): (k: nat)
    ensures k <= |blocks|
    ensures k < |blocks| ==> Matches(blocks[k], id, kind) && forall j | k < j < |blocks| :: !Matches(blocks[j], id, kind)
    ensures k == |blocks| ==> forall j | 0 <= j < |blocks| :: !Matches(blocks[j], id, kind)
  {
    if blocks == [] then 0
    else
      var n := |blocks| - 1;
      if Matches(blocks[n], id, kind) then n
      else if LastMatch(blocks[..n], id, kind) == n then n + 1
      else LastMatch(blocks[..n], id, kind)
  }

  /** The active block of the message is of this kind. */
  predicate ActiveMatch(l: Ledger, id: string, kind: Option<string>) {
    && id in l.active
    && var at := Find(l.blocks, id, l.active[id]);
       at < |l.blocks| && kind == Some(l.blocks[at].kind)
  }

  predicate HasUnclaimed(blocks: seq<Block>, id: string, kind: Option<string>) {
    exists j | 0 <= j < |blocks| :: blocks[j].id == id && kind == Some(blocks[j].kind) && !blocks[j].snapshot
  }

  /** The block a snapshot is about: the active one, else the first unclaimed one, else the last one. */
  function SnapshotTarget(l: Ledger, id: string, kind: Option<string>): (k: nat)
    ensures k <= |l.blocks|
    ensures k < |l.blocks| ==> l.blocks[k].id == id && kind == Some(l.blocks[k].kind)
    ensures ActiveMatch(l, id, kind) ==> k == Find(l.blocks, id, l.active[id])
    ensures !ActiveMatch(l, id, kind) && HasUnclaimed(l.blocks, id, kind) ==>
      k < |l.blocks| && !l.blocks[k].snapshot && !HasUnclaimed(l.blocks[..k], id, kind)
    ensures !ActiveMatch(l, id, kind) && !HasUnclaimed(l.blocks, id, kind) && k < |l.blocks| ==>
      forall j | k < j < |l.blocks| :: !(l.blocks[j].id == id && kind == Some(l.blocks[j].kind))
    ensures k == |l.blocks| <==> forall j | 0 <= j < |l.blocks| :: !(l.blocks[j].id == id && kind == Some(l.blocks[j].kind))
  {
    var at := if id in l.active then Find(l.blocks, id, l.active[id]) else |l.blocks|;
    if at < |l.blocks| && Matches(l.blocks[at], id, kind) then at
    else if Unclaimed(l.blocks, id, kind) < |l.blocks| then Unclaimed(l.blocks, id, kind)
    else LastMatch(l.blocks, id, kind)
  }

  function Claimed(l: Ledger, k: nat): Ledger
    requires k < |l.blocks|
  {
    l.(blocks := l.blocks[k := l.blocks[k].(snapshot := true)])
  }

  function Snapped(l: Ledger, k: nat, thinking: Option<string>): Stretch
    requires k < |l.blocks|
  {
    if l.blocks[k].kind != "thinking" then Stretch(Claimed(l, k), [])
    else if l.blocks[k].status == Unseen && thinking.Some? && thinking.value != "" then
      Publish(Claimed(l, k), k, thinking.value, Completed)
    else CloseAt(Claimed(l, k), k)
  }

  // ---- One input ----

  function Received(l: Ledger, input: Input): Stretch {
    match input
    case Partial(apiId, event) =>
      if event.MessageStart? then Started(l, event.id)
      else if apiId.Some? then Streamed(l, apiId.value, event)
      else if l.current.Some? then Streamed(l, l.current.value, event)
      else Stretch(l, [])
    case Snapshot(messageId, uuid, kind, thinking, offset) =>
      if messageId.Some? && messageId.value in l.messages then
        var k := SnapshotTarget(l, messageId.value, kind);
        if k < |l.blocks| then Snapped(l, k, thinking) else Stretch(l, [])
      else if uuid.Some? && kind == Some("thinking") && thinking.Some? && thinking.value != "" then
        Stretch(l, [Published(Envelope(uuid.value, offset), thinking.value, true)])
      else Stretch(l, [])
    case Close => Stretch(CLEAR, CloseMessages(l, l.messages).out)
  }
}
