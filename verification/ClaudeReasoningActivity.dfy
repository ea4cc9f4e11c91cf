/** The reasoning ledger as an object, over the sink it publishes to. */
module ClaudeReasoningActivity {
  import opened EventSinks
  import opened Wrappers
  import opened ClaudeReasoning
  import opened ClaudeReasoningTraces

  class ReasoningActivity {
    const events: EventSink<Published>
    var messages: seq<string>
    var active: map<string, Index>
    var blocks: seq<Block>
    var currentId: Option<string>
    ghost var since: nat // where the log stood at the last close

    constructor (events: EventSink<Published>)
      ensures this.events == events && Now() == CLEAR && Valid() && since == |events.log|
    {
      this.events := events;
      messages, active, blocks, currentId, since := [], map[], [], None, |events.log|;
    }

    ghost function Now(): Ledger
      reads this
    {
      Ledger(messages, active, blocks, currentId)
    }

    /** Since the last close, the ledger and what was published agree. */
    ghost predicate Valid()
      reads this, events
    {
      since <= |events.log| && Inv(Now(), events.log[since..])
    }

    method Publish(k: nat, text: string, status: Status)
      requires k < |blocks|
      modifies this`blocks, events
      ensures var s := ClaudeReasoning.Publish(old(Now()), k, text, status);
              Now() == s.ledger && events.log == old(events.log) + s.out
    {
      events.Emit(Published(KeyOf(blocks[k]), text, status == Completed));
      blocks := blocks[k := blocks[k].(status := status)];
    }

    method Delta(id: string, index: Index, text: Option<string>)
      modifies this`blocks, events
      ensures var s := ClaudeReasoning.Delta(old(Now()), id, index, text);
              Now() == s.ledger && events.log == old(events.log) + s.out
    {
      assert events.log + [] == events.log;
      var k := Find(blocks, id, index);
      if k == |blocks| || blocks[k].kind != "thinking" || blocks[k].status == Completed || text.None? || text.value == "" {
        return;
      }
      Publish(k, text.value, Streaming);
    }

    method CloseBlock(k: nat)
      requires k <= |blocks|
      modifies this`blocks, events
      ensures var s := CloseAt(old(Now()), k);
              Now() == s.ledger && events.log == old(events.log) + s.out
    {
      assert events.log + [] == events.log;
      if k == |blocks| || blocks[k].status != Streaming {
        return;
      }
      Publish(k, "", Completed);
    }

    method CloseMessage(id: string)
      modifies this`blocks, this`active, events
      ensures var s := ClaudeReasoning.CloseMessage(old(Now()), id);
              Now() == s.ledger && events.log == old(events.log) + s.out
    {
      assert events.log + [] == events.log;
      if id !in messages {
        return;
      }
      var k := 0;
      while k < |blocks|
        invariant k <= |blocks| && messages == old(messages) && active == old(active) && currentId == old(currentId)
        invariant CloseFrom(old(Now()), id, 0).ledger == CloseFrom(Now(), id, k).ledger
        invariant old(events.log) + CloseFrom(old(Now()), id, 0).out == events.log + CloseFrom(Now(), id, k).out
        decreases |blocks| - k
      {
        CloseAtLength(Now(), k);
        if blocks[k].id == id {
          CloseBlock(k);
        }
        k := k + 1;
      }
      active := active - {id};
    }

    /** A partial envelope of message `id`. */
    method StreamBlock(id: string, event: StreamEvent)
      requires !event.MessageStart?
      modifies this, events
      ensures since == old(since)
      ensures var s := Streamed(old(Now()), id, event);
              Now() == s.ledger && events.log == old(events.log) + s.out
    {
      hide ClaudeReasoning.CloseMessage, CloseAt;
      assert events.log + [] == events.log;
      if id !in messages {
        messages := messages + [id];
      }
      match event {
        case MessageStop =>
          CloseMessage(id);
          if currentId == Some(id) {
            currentId := None;
          }
        case BlockStart(index, kind, thinking) =>
          AddBlock(id, index, kind);
          active := active[id := index];
          if kind == "thinking" {
            Delta(id, index, thinking);
          }
        case ThinkingDelta(index, thinking) =>
          AddBlock(id, index, "thinking");
          Delta(id, index, thinking);
        case BlockStop(index) =>
          CloseBlock(Find(blocks, id, index));
          if id in active && active[id] == index {
            active := active - {id};
          }
        case _ =>
      }
    }

    method AddBlock(id: string, index: Index, kind: string)
      modifies this`blocks
      ensures Now() == EnsureBlock(old(Now()), id, index, kind)
    {
      if Find(blocks, id, index) == |blocks| {
        blocks := blocks + [Block(id, index, kind, Unseen, false)];
      }
    }

    method Stream(apiId: Option<string>, event: StreamEvent)
      requires Valid()
      modifies this, events
      ensures Valid() && since == old(since)
      ensures var s := Received(old(Now()), Partial(apiId, event));
              Now() == s.ledger && events.log == old(events.log) + s.out
    {
      hide Inv, ClaudeReasoning.CloseMessage, Streamed;
      assert events.log + [] == events.log;
      ReceivedInv(Now(), events.log[since..], Partial(apiId, event));
      ghost var out := Received(Now(), Partial(apiId, event)).out;
      assert (events.log + out)[since..] == events.log[since..] + out;
      if event.MessageStart? {
        if currentId.Some? {
          CloseMessage(currentId.value);
        }
        currentId := event.id;
        if event.id.Some? && event.id.value !in messages {
          messages := messages + [event.id.value];
        }
      } else if apiId.Some? {
        StreamBlock(apiId.value, event);
      } else if currentId.Some? {
        StreamBlock(currentId.value, event);
      }
    }

    method Snapshot(messageId: Option<string>, uuid: Option<string>, kind: Option<string>, thinking: Option<string>, offset: nat)
      requires Valid()
      modifies this, events
      ensures Valid() && since == old(since)
      ensures var s := Received(old(Now()), ClaudeReasoning.Snapshot(messageId, uuid, kind, thinking, offset));
              Now() == s.ledger && events.log == old(events.log) + s.out
    {
      hide Inv, SnapshotTarget;
      assert events.log + [] == events.log;
      ghost var input := ClaudeReasoning.Snapshot(messageId, uuid, kind, thinking, offset);
      ReceivedInv(Now(), events.log[since..], input);
      ghost var out := Received(Now(), input).out;
      assert (events.log + out)[since..] == events.log[since..] + out;
      if messageId.None? || messageId.value !in messages {
        if uuid.Some? && kind == Some("thinking") && thinking.Some? && thinking.value != "" {
          events.Emit(Published(Envelope(uuid.value, offset), thinking.value, true));
        }
        return;
      }
      var k := SnapshotTarget(Ledger(messages, active, blocks, currentId), messageId.value, kind);
      if k == |blocks| {
        return;
      }
      blocks := blocks[k := blocks[k].(snapshot := true)];
      if blocks[k].kind != "thinking" {
        return;
      }
      if blocks[k].status == Unseen && thinking.Some? && thinking.value != "" {
        Publish(k, thinking.value, Completed);
      } else {
        CloseBlock(k);
      }
    }

    method Close()
      requires Valid()
      modifies this, events
      ensures Valid() && Now() == CLEAR && since == |events.log|
      ensures events.log == old(events.log) + CloseMessages(old(Now()), old(messages)).out
    {
      hide Inv, ClaudeReasoning.CloseMessage;
      assert messages[0..] == messages;
      var k := 0;
      while k < |messages|
        invariant k <= |messages| && messages == old(messages) && since == old(since)
        invariant old(events.log) + CloseMessages(old(Now()), old(messages)).out
               == events.log + CloseMessages(Now(), messages[k..]).out
      {
        CloseMessage(messages[k]);
        k := k + 1;
      }
      messages, active, blocks, currentId, since := [], map[], [], None, |events.log|;
      ClearInv();
      assert events.log[since..] == [];
    }
  }
}
