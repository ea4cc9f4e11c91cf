/** The Codex reasoning ledger: the parts streamed so far that still have to be completed. */
module CodexReasoning {
  import opened EventSinks
  import opened CodexActivity

  datatype Carrier = Summary | Content

  datatype Item = Item(carrier: Carrier, parts: set<Index>)

  type Ledger = map<string, map<string, Item>>

  ghost predicate Holds(turns: Ledger, p: Part) {
    p.turn in turns && p.item in turns[p.turn] && p.index in turns[p.turn][p.item].parts
  }

  /** The ledger holds exactly `open`. */
  ghost predicate HoldsExactly(turns: Ledger, open: set<Part>) {
    forall p :: p in open <==> Holds(turns, p)
  }

  /** No entry outlives its last open part. */
  ghost predicate NoEmptyEntries(turns: Ledger) {
    forall t | t in turns :: turns[t] != map[] && forall i | i in turns[t] :: turns[t][i].parts != {}
  }

  predicate HasText(texts: seq<string>) {
    exists text | text in texts :: text != ""
  }

  function CarrierOf(turns: Ledger, turn: string, id: string, summary: seq<string>): Carrier {
    if turn in turns && id in turns[turn] then turns[turn][id].carrier
    else if HasText(summary) then Summary
    else Content
  }

  /** The texts of a snapshot that count: those of the item's carrier, or, unless it was seen before, of the first that says anything. */
  function Carried(turns: Ledger, turn: string, id: string, summary: seq<string>, content: seq<string>): (texts: seq<string>)
    ensures turn in turns && id in turns[turn] ==> texts == if turns[turn][id].carrier == Summary then summary else content
    ensures !(turn in turns && id in turns[turn]) && (exists text | text in summary :: text != "") ==> texts == summary
    ensures !(turn in turns && id in turns[turn]) && (forall text | text in summary :: text == "") ==> texts == content
  {
    if CarrierOf(turns, turn, id, summary) == Summary then summary else content
  }

  function PartsOf(turns: Ledger, turn: string, id: string): set<Index> {
    if turn in turns && id in turns[turn] then turns[turn][id].parts else {}
  }

  predicate OfItem(p: Part, turn: string, id: string) {
    p.turn == turn && p.item == id
  }

  ghost function WithoutItem(open: set<Part>, turn: string, id: string): set<Part> {
    set p | p in open && !OfItem(p, turn, id)
  }

  ghost function WithoutTurn(open: set<Part>, turn: string): set<Part> {
    set p | p in open && p.turn != turn
  }

  /** What a snapshot says of one part: a streamed part ends bare, any other brings its text, if it has one. */
  ghost function SnapshotPart(part: Part, text: string, streamed: bool): seq<Activity> {
    if streamed then [Reasoning(part, "", Completed)]
    else if text != "" then [Reasoning(part, text, Completed)]
    else []
  }

  ghost function SnapshotOf(turn: string, id: string, texts: seq<string>, streamed: set<Index>): seq<Activity> {
    if texts == [] then []
    else
      var n := |texts| - 1;
      var part := Part(turn, id, Index(n));
      SnapshotOf(turn, id, texts[..n], streamed) + SnapshotPart(part, texts[n], part.index in streamed)
  }

  /** `later` continues `earlier` with what the snapshot says, and then only closes parts it did not reach. */
  ghost predicate PublishesSnapshot(earlier: seq<Activity>, later: seq<Activity>, turn: string, id: string,
                                    texts: seq<string>, streamed: set<Index>)
  {
    && earlier + SnapshotOf(turn, id, texts, streamed) <= later
    && forall i | |earlier + SnapshotOf(turn, id, texts, streamed)| <= i < |later| ::
         exists k | k in streamed && !(0 <= k.n < |texts|) :: later[i] == Reasoning(Part(turn, id, k), "", Completed)
  }

  /** Each text of a part never streamed is published once, and no text of a streamed part is. */
  lemma {:induction false} SnapshotSays(turn: string, id: string, texts: seq<string>, streamed: set<Index>, i: nat)
    requires i < |texts| && texts[i] != ""
    ensures multiset(SnapshotOf(turn, id, texts, streamed))[Reasoning(Part(turn, id, Index(i)), texts[i], Completed)] ==
            if Index(i) in streamed then 0 else 1
  {
    var n := |texts| - 1;
    var said := Reasoning(Part(turn, id, Index(i)), texts[i], Completed);
    var last := SnapshotPart(Part(turn, id, Index(n)), texts[n], Index(n) in streamed);
    assert multiset(last)[said] == if i == n && Index(i) !in streamed then 1 else 0;
    if i < n {
      SnapshotSays(turn, id, texts[..n], streamed, i);
    } else {
      SnapshotBounded(turn, id, texts[..n], streamed);
    }
  }

  /** A snapshot's activity names its own parts only, each with its text or bare. */
  lemma {:induction false} SnapshotBounded(turn: string, id: string, texts: seq<string>, streamed: set<Index>)
    ensures forall a | a in SnapshotOf(turn, id, texts, streamed) ::
              && a.Reasoning? && a.status == Completed && OfItem(a.part, turn, id) && 0 <= a.part.index.n < |texts|
              && a.text == if a.part.index in streamed then "" else texts[a.part.index.n]
  {
    if texts != [] {
      SnapshotBounded(turn, id, texts[..|texts| - 1], streamed);
    }
  }

  class CodexReasoningActivity {
    var turns: Ledger
    const sink: EventSink<Activity>

    constructor (sink: EventSink<Activity>)
      requires Balanced(sink.log) && Open(sink.log) == {}
      ensures Valid() && this.sink == sink && turns == map[]
    {
      this.sink := sink;
      turns := map[];
    }

    /** The ledger holds exactly the parts streamed and not yet completed. */
    ghost predicate Valid()
      reads this, sink
    {
      && Balanced(sink.log)
      && HoldsExactly(turns, Open(sink.log))
      && NoEmptyEntries(turns)
    }

    method Delta(turn: string, id: string, carrier: Carrier, index: Index, text: string)
      requires Valid()
      modifies this, sink
      ensures Valid()
      ensures var known := old(turn in turns && id in turns[turn]);
              if text == "" || (known && old(turns)[turn][id].carrier != carrier)
              then sink.log == old(sink.log) && turns == old(turns)
              else sink.log == old(sink.log) + [Reasoning(Part(turn, id, index), text, Streaming)]
    {
      if text == "" {
        return;
      }
      var items: map<string, Item> := if turn in turns then turns[turn] else map[];
      var item := if id in items then items[id] else Item(carrier, {});
      if item.carrier != carrier {
        return;
      }
      Emitted(sink.log, Reasoning(Part(turn, id, index), text, Streaming));
      turns := turns[turn := items[id := item.(parts := item.parts + {index})]];
      Remembered(old(turns), turns, Open(sink.log), turn, id, index, carrier);
      sink.Emit(Reasoning(Part(turn, id, index), text, Streaming));
    }

    lemma Remembered(before: Ledger, after: Ledger, open: set<Part>, turn: string, id: string, index: Index, carrier: Carrier)
      requires HoldsExactly(before, open) && NoEmptyEntries(before)
      requires var items := if turn in before then before[turn] else map[];
               var item := if id in items then items[id] else Item(carrier, {});
               after == before[turn := items[id := item.(parts := item.parts + {index})]]
      ensures HoldsExactly(after, open + {Part(turn, id, index)}) && NoEmptyEntries(after)
    {
      forall p ensures p in open + {Part(turn, id, index)} <==> Holds(after, p) {
        assert p in open <==> Holds(before, p);
      }
    }

    /** A finished item: its snapshot completes its parts, and whatever is left is closed bare. */
    method Complete(turn: string, id: string, summary: seq<string>, content: seq<string>)
      requires Valid()
      modifies this, sink
      ensures Valid() && OnlyReasoning(old(sink.log), sink.log)
      ensures Open(sink.log) == WithoutItem(old(Open(sink.log)), turn, id)
      ensures turn in turns ==> id !in turns[turn]
      ensures PublishesSnapshot(old(sink.log), sink.log, turn, id, Carried(old(turns), turn, id, summary, content),
                                PartsOf(old(turns), turn, id))
    {
      var texts := Carried(turns, turn, id, summary, content);
      var known := turn in turns && id in turns[turn];
      ghost var others := WithoutItem(Open(sink.log), turn, id);
      var open := CompleteParts(turn, id, texts, PartsOf(turns, turn, id), others);
      CloseItem(turn, id, open, others);
      if known {
        var items := turns[turn] - {id};
        turns := if items == map[] then turns - {turn} else turns[turn := items];
      }
      Forgotten(old(turns), turns, old(Open(sink.log)), turn, id);
    }

    lemma Forgotten(before: Ledger, after: Ledger, open: set<Part>, turn: string, id: string)
      requires HoldsExactly(before, open) && NoEmptyEntries(before)
      requires after == if turn !in before || id !in before[turn] then before
                        else if before[turn] - {id} == map[] then before - {turn}
                        else before[turn := before[turn] - {id}]
      ensures HoldsExactly(after, WithoutItem(open, turn, id)) && NoEmptyEntries(after)
    {
      if turn in before {
        var rest := before[turn] - {id};
        assert forall i :: i in rest <==> i in before[turn] && i != id;
        forall p ensures p in WithoutItem(open, turn, id) <==> Holds(after, p) {
          assert p in open <==> Holds(before, p);
        }
      }
    }

    /** Complete the snapshot's parts in order; the parts it does not reach stay open. */
    method CompleteParts(turn: string, id: string, texts: seq<string>, parts: set<Index>, ghost others: set<Part>)
      returns (open: set<Index>)
      requires Balanced(sink.log)
      requires forall p :: p in Open(sink.log) <==> p in others || (OfItem(p, turn, id) && p.index in parts)
      requires forall p | p in others :: !OfItem(p, turn, id)
      modifies sink
      ensures Balanced(sink.log) && sink.log == old(sink.log) + SnapshotOf(turn, id, texts, parts)
      ensures OnlyReasoning(old(sink.log), sink.log)
      ensures forall k :: k in open <==> k in parts && !(0 <= k.n < |texts|)
      ensures forall p :: p in Open(sink.log) <==> p in others || (OfItem(p, turn, id) && p.index in open)
    {
      hide Open, Balanced, MayFollow;
      open := parts;
      var index := 0;
      while index < |texts|
        invariant 0 <= index <= |texts|
        invariant forall k :: k in open <==> k in parts && !(0 <= k.n < index)
        invariant Balanced(sink.log) && OnlyReasoning(old(sink.log), sink.log)
        invariant sink.log == old(sink.log) + SnapshotOf(turn, id, texts[..index], parts)
        invariant forall p :: p in Open(sink.log) <==> p in others || (OfItem(p, turn, id) && p.index in open)
      {
        assert texts[..index + 1][..index] == texts[..index];
        var part := Part(turn, id, Index(index));
        CompletePart(part, texts[index], Index(index) in open);
        open := open - {Index(index)};
        index := index + 1;
      }
      assert texts[..index] == texts;
    }

    method CompletePart(part: Part, text: string, streamed: bool)
      requires Balanced(sink.log) && (streamed <==> part in Open(sink.log))
      modifies sink
      ensures Balanced(sink.log) && Open(sink.log) == old(Open(sink.log)) - {part}
      ensures sink.log == old(sink.log) + SnapshotPart(part, text, streamed)
    {
      if streamed || text != "" {
        var activity := Reasoning(part, if streamed then "" else text, Completed);
        Emitted(sink.log, activity);
        sink.Emit(activity);
      }
    }

    /** Close every open part of one turn and forget the turn. */
    method CloseTurn(turn: string)
      requires Valid()
      modifies this, sink
      ensures Valid() && turns == old(turns) - {turn}
      ensures OnlyCloses(old(sink.log), sink.log, old(Open(sink.log)))
      ensures Open(sink.log) == WithoutTurn(old(Open(sink.log)), turn)
    {
      if turn in turns {
        var items := turns[turn];
        var remaining := items.Keys;
        ghost var others := WithoutTurn(Open(sink.log), turn);
        while remaining != {}
          invariant remaining <= items.Keys && turns == old(turns)
          invariant Balanced(sink.log) && OnlyCloses(old(sink.log), sink.log, old(Open(sink.log)))
          invariant forall p :: p in Open(sink.log) <==>
                      p in others || (p.turn == turn && p.item in remaining && p.index in items[p.item].parts)
          decreases remaining
        {
          var id :| id in remaining;
          CloseItem(turn, id, items[id].parts, WithoutItem(Open(sink.log), turn, id));
          remaining := remaining - {id};
        }
        turns := turns - {turn};
      }
    }

    /** Close every open part of every turn. */
    method Close()
      requires Valid()
      modifies this, sink
      ensures Valid() && turns == map[] && Open(sink.log) == {}
      ensures OnlyCloses(old(sink.log), sink.log, old(Open(sink.log)))
    {
      while turns != map[]
        invariant Valid() && OnlyCloses(old(sink.log), sink.log, old(Open(sink.log)))
        invariant Open(sink.log) <= old(Open(sink.log))
        decreases turns.Keys
      {
        var turn :| turn in turns;
        CloseTurn(turn);
      }
    }

    method CloseItem(turn: string, id: string, parts: set<Index>, ghost kept: set<Part>)
      requires Balanced(sink.log)
      requires forall p :: p in Open(sink.log) <==> p in kept || (OfItem(p, turn, id) && p.index in parts)
      requires forall p | p in kept :: !OfItem(p, turn, id)
      modifies sink
      ensures Balanced(sink.log) && Open(sink.log) == kept
      ensures OnlyCloses(old(sink.log), sink.log, old(Open(sink.log)))
      ensures PublishesSnapshot(old(sink.log), sink.log, turn, id, [], parts)
    {
      hide Open, MayFollow, Balanced;
      var remaining := parts;
      while remaining != {}
        invariant remaining <= parts
        invariant Balanced(sink.log) && OnlyCloses(old(sink.log), sink.log, old(Open(sink.log)))
        invariant PublishesSnapshot(old(sink.log), sink.log, turn, id, [], parts)
        invariant forall p :: p in Open(sink.log) <==> p in kept || (OfItem(p, turn, id) && p.index in remaining)
        decreases remaining
      {
        var index :| index in remaining;
        var part := Part(turn, id, index);
        assert part in old(Open(sink.log));
        CompletePart(part, "", true);
        remaining := remaining - {index};
      }
    }
  }
}
