/** The completion a native Codex turn's terminal answers its submissions with. */
module CodexCompletion {
  import opened Wrappers
  import opened CodexActivity

  datatype ThreadItem =
    | AgentMessage(message: Option<string>) // None: an agent message without text
    | ReasoningItem(id: string, summary: seq<string>, content: seq<string>)
    | OtherItem

  datatype Terminal =
    | Collected(items: seq<ThreadItem>, interrupted: bool)
    | Broken(error: string)

  /** The session's output-schema restoration; a failure carries its message. */
  type Codec = string -> Result<string, string>

  predicate SaysNothing(items: seq<ThreadItem>) {
    forall i | 0 <= i < |items| :: !items[i].AgentMessage?
  }

  function NonEmpty(text: Option<string>): Option<string> {
    if text == Some("") then None else text
  }

  /** The text of the last agent message, if it has any. */
  function ExtractAssistantText(items: seq<ThreadItem>): Option<string> {
    if items == [] then None
    else
      var last := items[|items| - 1];
      if last.AgentMessage? then NonEmpty(last.message) else ExtractAssistantText(items[..|items| - 1])
  }

  /** `items` with the last agent message that says `text` saying `restored`, or None if none says it. */
  function ReplaceLast(items: seq<ThreadItem>, text: string, restored: string): Option<seq<ThreadItem>> {
    if items == [] then None
    else
      var front, last := items[..|items| - 1], items[|items| - 1];
      if last == AgentMessage(Some(text)) then Some(front + [AgentMessage(Some(restored))])
      else
        var replaced := ReplaceLast(front, text, restored);
        if replaced.None? then None else Some(replaced.value + [last])
  }

  function RestoreItems(items: seq<ThreadItem>, codec: Codec): Result<seq<ThreadItem>, string> {
    var text := ExtractAssistantText(items);
    if text.None? then Failure("completed turn has no assistant JSON text")
    else
      var restored :- codec(text.value);
      var replaced := ReplaceLast(items, text.value, restored);
      if replaced.None? then Failure("assistant JSON text was not found") else Success(replaced.value)
  }

  function CompletionFromTerminal(terminal: Terminal, codec: Option<Codec>): Completion {
    if terminal.Broken? then Unanswered(terminal.error)
    else
      var items := if codec.Some? then RestoreItems(terminal.items, codec.value) else Success(terminal.items);
      if items.Failure? then Unanswered(items.error) else Answered(ExtractAssistantText(items.value))
  }

  lemma {:induction false} LastWord(items: seq<ThreadItem>, i: nat)
    requires i < |items| && items[i].AgentMessage? && SaysNothing(items[i + 1..])
    ensures ExtractAssistantText(items) == NonEmpty(items[i].message)
  {
    if i + 1 < |items| {
      assert items[|items| - 1] == items[i + 1..][|items| - i - 2];
      assert items[..|items| - 1][i + 1..] == items[i + 1..][..|items| - i - 2];
      LastWord(items[..|items| - 1], i);
    }
  }

  /** The replaced message is the last agent message, and nothing else changes. */
  lemma {:induction false} ReplaceFindsLastWord(items: seq<ThreadItem>, text: string, restored: string) returns (i: nat)
    requires ExtractAssistantText(items) == Some(text)
    ensures i < |items| && items[i] == AgentMessage(Some(text)) && SaysNothing(items[i + 1..])
    ensures ReplaceLast(items, text, restored) == Some(items[i := AgentMessage(Some(restored))])
  {
    var front, last := items[..|items| - 1], items[|items| - 1];
    if last.AgentMessage? {
      i := |items| - 1;
      assert front + [AgentMessage(Some(restored))] == items[i := AgentMessage(Some(restored))];
    } else {
      i := ReplaceFindsLastWord(front, text, restored);
      assert items[i + 1..] == front[i + 1..] + [last];
      assert front[i := AgentMessage(Some(restored))] + [last] == items[i := AgentMessage(Some(restored))];
    }
  }

  /**
   * With an output schema a turn completes with exactly what its last agent message
   * restores to; no restoration, or no message, fails it.
   */
  lemma {:induction false} CompletionRestoresTheLastMessage(items: seq<ThreadItem>, interrupted: bool, codec: Codec)
    ensures var text := ExtractAssistantText(items);
            CompletionFromTerminal(Collected(items, interrupted), Some(codec)) ==
            if text.None? then Unanswered("completed turn has no assistant JSON text")
            else if codec(text.value).Failure? then Unanswered(codec(text.value).error)
            else Answered(NonEmpty(Some(codec(text.value).value)))
  {
    var text := ExtractAssistantText(items);
    if text.Some? && codec(text.value).Success? {
      var restored := codec(text.value).value;
      var i := ReplaceFindsLastWord(items, text.value, restored);
      var replaced := items[i := AgentMessage(Some(restored))];
      assert replaced[i + 1..] == items[i + 1..];
      LastWord(replaced, i);
    }
  }

  // ---- What every terminal answers ----

  /** `text` is that of the last agent message; an agent message without text, or none at all, says nothing. */
  ghost predicate LastSaid(items: seq<ThreadItem>, text: Option<string>) {
    || (SaysNothing(items) && text.None?)
    || exists i | 0 <= i < |items| ::
         && items[i].AgentMessage? && SaysNothing(items[i + 1..])
         && if text.Some? then text.value != "" && items[i].message == text
            else items[i].message.None? || items[i].message == Some("")
  }

  /**
   * A broken turn answers with its own error. Any other answers with its last word: as it is
   * without an output schema, and restored with one, where no word or no restoration is a failure.
   */
  ghost predicate Answers(terminal: Terminal, codec: Option<Codec>, completion: Completion) {
    if terminal.Broken? then completion == Unanswered(terminal.error)
    else
      exists text :: LastSaid(terminal.items, text) &&
        if codec.None? then completion == Answered(text)
        else if text.None? then completion == Unanswered("completed turn has no assistant JSON text")
        else
          match codec.value(text.value)
          case Success(restored) => completion == Answered(if restored == "" then None else Some(restored))
          case Failure(error) => completion == Unanswered(error)
  }

  lemma {:induction false} LastSaidIsExtracted(items: seq<ThreadItem>, text: Option<string>)
    ensures LastSaid(items, text) <==> text == ExtractAssistantText(items)
  {
    if SaysNothing(items) {
      NothingExtracted(items);
    } else {
      var i := LastMessage(items);
      LastWord(items, i);
      forall j | 0 <= j < |items| && items[j].AgentMessage? && SaysNothing(items[j + 1..])
        ensures ExtractAssistantText(items) == NonEmpty(items[j].message)
      {
        LastWord(items, j);
      }
    }
  }

  lemma {:induction false} NothingExtracted(items: seq<ThreadItem>)
    requires SaysNothing(items)
    ensures ExtractAssistantText(items) == None
  {
    if items != [] {
      NothingExtracted(items[..|items| - 1]);
    }
  }

  lemma {:induction false} LastMessage(items: seq<ThreadItem>) returns (i: nat)
    requires !SaysNothing(items)
    ensures i < |items| && items[i].AgentMessage? && SaysNothing(items[i + 1..])
  {
    i := |items| - 1;
    if !items[i].AgentMessage? {
      var front := items[..i];
      i := LastMessage(front);
      assert items[i + 1..] == front[i + 1..] + [items[|items| - 1]];
    }
  }

  /** The completion of a terminal, with or without an output schema, is the one it answers with, and the only one. */
  lemma CompletionAnswers(terminal: Terminal, codec: Option<Codec>, completion: Completion)
    ensures Answers(terminal, codec, completion) <==> completion == CompletionFromTerminal(terminal, codec)
  {
    if terminal.Collected? {
      var text := ExtractAssistantText(terminal.items);
      forall other ensures LastSaid(terminal.items, other) <==> other == text {
        LastSaidIsExtracted(terminal.items, other);
      }
      if codec.Some? {
        CompletionRestoresTheLastMessage(terminal.items, terminal.interrupted, codec.value);
      }
      assert LastSaid(terminal.items, text);
    }
  }
}
