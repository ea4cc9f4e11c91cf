/**
 * The peer bots of each chat: the ones seen, the ones introduced and trusted, and the one-shot
 * context that is pending after an introduction or an added bot.
 */
module ChatBots {
  datatype Bot = Bot(openId: string, name: string) // an unnamed bot has the empty name

  datatype Entry = Entry(
    known: seq<string>,
    trusted: seq<string>,
    names: map<string, string>,
    needsBaseline: bool,
    generation: nat,
    seen: seq<string>)

  type Chats = map<string, Entry>

  const EMPTY_ENTRY := Entry([], [], map[], false, 0, [])

  const MAX_SEEN_EVENT_IDS := 200

  function EntryOf(chats: Chats, chat: string): Entry {
    if chat in chats then chats[chat] else EMPTY_ENTRY
  }

  // ---- The changes ----

  function WithName(entry: Entry, bot: Bot): Entry {
    if bot.name == "" then entry else entry.(names := entry.names[bot.openId := bot.name])
  }

  function With(ids: seq<string>, id: string): seq<string> {
    if id in ids then ids else ids + [id]
  }

  function WithBaseline(entry: Entry): Entry {
    entry.(needsBaseline := true, generation := entry.generation + 1)
  }

  /** Nothing is written for an entry that did not change. */
  function Put(chats: Chats, chat: string, entry: Entry): Chats {
    if entry == EntryOf(chats, chat) then chats else chats[chat := entry]
  }

  function Observe(chats: Chats, chat: string, bot: Bot): Chats {
    if bot.openId == "" then chats
    else
      var named := WithName(EntryOf(chats, chat), bot);
      Put(chats, chat, named.(known := With(named.known, bot.openId)))
  }

  function Trust(entry: Entry, bot: Bot): Entry {
    if bot.openId == "" then entry
    else
      var named := WithName(entry, bot);
      named.(known := With(named.known, bot.openId), trusted := With(named.trusted, bot.openId))
  }

  /** Bots are introduced one after the other. */
  function TrustAll(entry: Entry, bots: seq<Bot>): Entry {
    if bots == [] then entry else Trust(TrustAll(entry, bots[..|bots| - 1]), bots[|bots| - 1])
  }

  function Introduce(chats: Chats, chat: string, bots: seq<Bot>): Chats {
    var before := EntryOf(chats, chat);
    var entry := TrustAll(before, bots);
    Put(chats, chat, if |entry.trusted| > |before.trusted| then WithBaseline(entry) else entry)
  }

  function Clear(chats: Chats, chat: string, generation: nat): Chats {
    if chat !in chats || !chats[chat].needsBaseline || chats[chat].generation != generation then chats
    else chats[chat := chats[chat].(needsBaseline := false)]
  }

  function LastIds(ids: seq<string>): (last: seq<string>)
    ensures |last| == if |ids| > MAX_SEEN_EVENT_IDS then MAX_SEEN_EVENT_IDS else |ids|
  {
    if |ids| > MAX_SEEN_EVENT_IDS then ids[|ids| - MAX_SEEN_EVENT_IDS..] else ids
  }

  function BotAdded(chats: Chats, chat: string, eventId: string): Chats {
    var entry := EntryOf(chats, chat);
    if eventId != "" && eventId in entry.seen then chats
    else
      var seen := if eventId == "" then entry.seen else LastIds(entry.seen + [eventId]);
      chats[chat := WithBaseline(entry.(seen := seen))]
  }

  // ---- Runs ----

  datatype Event =
    | EObserve(chat: string, bot: Bot)
    | EIntroduce(chat: string, bots: seq<Bot>)
    | EClear(chat: string, generation: nat)
    | EBotAdded(chat: string, eventId: string)

  function Step(chats: Chats, e: Event): Chats {
    match e
    case EObserve(chat, bot) => Observe(chats, chat, bot)
    case EIntroduce(chat, bots) => Introduce(chats, chat, bots)
    case EClear(chat, generation) => Clear(chats, chat, generation)
    case EBotAdded(chat, eventId) => BotAdded(chats, chat, eventId)
  }

  function After(chats: Chats, events: seq<Event>): Chats {
    if events == [] then chats else Step(After(chats, events[..|events| - 1]), events[|events| - 1])
  }

  function Ids(bots: seq<Bot>): set<string> {
    set b | b in bots && b.openId != "" :: b.openId
  }

  /** The bots these events introduce in a chat. */
  function IntroducedIn(events: seq<Event>, chat: string): set<string> {
    if events == [] then {}
    else
      var e := events[|events| - 1];
      IntroducedIn(events[..|events| - 1], chat) + if e.EIntroduce? && e.chat == chat then Ids(e.bots) else {}
  }

  /** The bots these events show in a chat. */
  function ObservedIn(events: seq<Event>, chat: string): set<string> {
    if events == [] then {}
    else
      var e := events[|events| - 1];
      ObservedIn(events[..|events| - 1], chat) + if e.EObserve? && e.chat == chat then Ids([e.bot]) else {}
  }

  function Members(ids: seq<string>): set<string> {
    set id | id in ids
  }

  lemma WithMembers(ids: seq<string>, id: string)
    ensures Members(With(ids, id)) == Members(ids) + {id}
  {
  }

  lemma {:induction false} TrustAllMembers(entry: Entry, bots: seq<Bot>)
    ensures var after := TrustAll(entry, bots);
            && Members(after.trusted) == Members(entry.trusted) + Ids(bots)
            && Members(after.known) == Members(entry.known) + Ids(bots)
            && entry.trusted <= after.trusted
            && after.needsBaseline == entry.needsBaseline && after.generation == entry.generation && after.seen == entry.seen
  {
    if bots != [] {
      var first, last := bots[..|bots| - 1], bots[|bots| - 1];
      TrustAllMembers(entry, first);
      TrustMembers(TrustAll(entry, first), last);
      hide Trust, Members;
      assert bots == first + [last];
      assert Ids(bots) == Ids(first) + Ids([last]);
    }
  }

  lemma TrustMembers(entry: Entry, bot: Bot)
    ensures var after := Trust(entry, bot);
            && Members(after.trusted) == Members(entry.trusted) + Ids([bot])
            && Members(after.known) == Members(entry.known) + Ids([bot])
            && entry.trusted <= after.trusted
            && after.needsBaseline == entry.needsBaseline && after.generation == entry.generation && after.seen == entry.seen
  {
    assert Ids([bot]) == if bot.openId != "" then {bot.openId} else {};
    WithMembers(entry.trusted, bot.openId);
    WithMembers(entry.known, bot.openId);
  }

  lemma StepMembers(chats: Chats, e: Event, chat: string)
    ensures var before, after := EntryOf(chats, chat), EntryOf(Step(chats, e), chat);
            && Members(after.trusted) == Members(before.trusted) + (if e.EIntroduce? && e.chat == chat then Ids(e.bots) else {})
            && Members(after.known) == Members(before.known)
                 + (if e.EIntroduce? && e.chat == chat then Ids(e.bots) else {})
                 + (if e.EObserve? && e.chat == chat then Ids([e.bot]) else {})
  {
    var before := EntryOf(chats, chat);
    match e {
      case EObserve(_, bot) =>
        WithMembers(before.known, bot.openId);
        assert Ids([bot]) == if bot.openId != "" then {bot.openId} else {};
      case EIntroduce(_, bots) =>
        TrustAllMembers(before, bots);
      case _ =>
    }
  }

  /**
   * From an empty store, the trusted bots of a chat are exactly those introduced in it, and the
   * known ones exactly those introduced or observed: observing never grants trust.
   */
  lemma {:induction false} TrustIsIntroduction(events: seq<Event>, chat: string)
    ensures Members(EntryOf(After(map[], events), chat).trusted) == IntroducedIn(events, chat)
    ensures Members(EntryOf(After(map[], events), chat).known) == IntroducedIn(events, chat) + ObservedIn(events, chat)
  {
    if events != [] {
      TrustIsIntroduction(events[..|events| - 1], chat);
      StepMembers(After(map[], events[..|events| - 1]), events[|events| - 1], chat);
      hide Step, EntryOf;
    }
  }

  /** In every run from an empty store each trusted bot is also known. */
  lemma TrustedAreKnown(events: seq<Event>, chat: string)
    ensures Members(EntryOf(After(map[], events), chat).trusted) <= Members(EntryOf(After(map[], events), chat).known)
  {
    TrustIsIntroduction(events, chat);
  }

  // ---- Names ----

  /** The bots a chat hears of, in order: the introduced ones of each introduction, and the observed ones. */
  function MentionsIn(events: seq<Event>, chat: string): seq<Bot> {
    if events == [] then []
    else
      var e := events[|events| - 1];
      MentionsIn(events[..|events| - 1], chat) +
      if e.EIntroduce? && e.chat == chat then e.bots
      else if e.EObserve? && e.chat == chat then [e.bot]
      else []
  }

  predicate Names(bot: Bot, openId: string) {
    bot.openId == openId && openId != "" && bot.name != ""
  }

  /** Mention `k` is the last to name the bot. */
  predicate LastNamed(mentions: seq<Bot>, openId: string, k: nat) {
    k < |mentions| && Names(mentions[k], openId) && forall j | k < j < |mentions| :: !Names(mentions[j], openId)
  }

  ghost predicate IsNamed(mentions: seq<Bot>, openId: string) {
    exists k: nat :: LastNamed(mentions, openId, k)
  }

  ghost predicate NamesAreLast(names: map<string, string>, mentions: seq<Bot>) {
    && (forall openId :: openId in names <==> IsNamed(mentions, openId))
    && (forall openId, k: nat | openId in names && LastNamed(mentions, openId, k) :: names[openId] == mentions[k].name)
  }

  lemma LastNamedNext(mentions: seq<Bot>, bot: Bot, openId: string, k: nat)
    ensures LastNamed(mentions + [bot], openId, k) <==>
            if Names(bot, openId) then k == |mentions| else LastNamed(mentions, openId, k)
  {
    var longer := mentions + [bot];
    assert longer[|mentions|] == bot && forall j | 0 <= j < |mentions| :: longer[j] == mentions[j];
  }

  lemma NamedNext(names: map<string, string>, mentions: seq<Bot>, bot: Bot)
    requires NamesAreLast(names, mentions)
    ensures NamesAreLast(if bot.openId == "" || bot.name == "" then names else names[bot.openId := bot.name], mentions + [bot])
  {
    var longer := mentions + [bot];
    forall openId ensures IsNamed(longer, openId) <==> Names(bot, openId) || IsNamed(mentions, openId) {
      IsNamedNext(mentions, bot, openId);
    }
    forall openId, k: nat | LastNamed(longer, openId, k) && !Names(bot, openId)
      ensures LastNamed(mentions, openId, k) && longer[k] == mentions[k]
    {
      LastNamedNext(mentions, bot, openId, k);
    }
    forall openId, k: nat | LastNamed(longer, openId, k) && Names(bot, openId) ensures longer[k] == bot {
      LastNamedNext(mentions, bot, openId, k);
    }
    hide IsNamed;
  }

  lemma IsNamedNext(mentions: seq<Bot>, bot: Bot, openId: string)
    ensures IsNamed(mentions + [bot], openId) <==> Names(bot, openId) || IsNamed(mentions, openId)
  {
    forall k: nat ensures LastNamed(mentions + [bot], openId, k) <==>
                          if Names(bot, openId) then k == |mentions| else LastNamed(mentions, openId, k) {
      LastNamedNext(mentions, bot, openId, k);
    }
    hide LastNamed;
    assert Names(bot, openId) ==> LastNamed(mentions + [bot], openId, |mentions|);
  }

  lemma {:induction false} IntroducedNames(entry: Entry, bots: seq<Bot>, mentions: seq<Bot>)
    requires NamesAreLast(entry.names, mentions)
    ensures NamesAreLast(TrustAll(entry, bots).names, mentions + bots)
  {
    if bots == [] {
      assert mentions + bots == mentions;
    } else {
      var first, last := bots[..|bots| - 1], bots[|bots| - 1];
      IntroducedNames(entry, first, mentions);
      assert mentions + bots == mentions + first + [last];
      hide NamesAreLast;
      NamedNext(TrustAll(entry, first).names, mentions + first, last);
    }
  }

  /** In every run from an empty store a bot goes by the last name it was seen or introduced with, if any. */
  lemma {:induction false} NamesAreTheLast(events: seq<Event>, chat: string)
    ensures NamesAreLast(EntryOf(After(map[], events), chat).names, MentionsIn(events, chat))
  {
    if events != [] {
      var first, e := events[..|events| - 1], events[|events| - 1];
      NamesAreTheLast(first, chat);
      var before, mentions := EntryOf(After(map[], first), chat), MentionsIn(first, chat);
      assert mentions + [] == mentions;
      match e {
        case EIntroduce(_, bots) => IntroducedNames(before, bots, mentions);
        case EObserve(_, bot) => NamedNext(before.names, mentions, bot);
        case _ =>
      }
      hide NamesAreLast, LastIds;
    }
  }

  // ---- The pending context ----

  /** The event makes context pending again: it introduces someone new, or records an added bot. */
  predicate Arms(chats: Chats, e: Event, chat: string) {
    EntryOf(Step(chats, e), chat).generation > EntryOf(chats, chat).generation
  }

  lemma StepBaseline(chats: Chats, e: Event, chat: string)
    ensures var before, after := EntryOf(chats, chat), EntryOf(Step(chats, e), chat);
            && (if Arms(chats, e, chat) then after.generation == before.generation + 1 && after.needsBaseline
                else after.generation == before.generation
                     && after.needsBaseline == (before.needsBaseline && e != EClear(chat, before.generation)))
            && (Arms(chats, e, chat) <==>
                  || (e.EBotAdded? && e.chat == chat && (e.eventId == "" || e.eventId !in before.seen))
                  || (e.EIntroduce? && e.chat == chat && !(Ids(e.bots) <= Members(before.trusted))))
  {
    var before := EntryOf(chats, chat);
    if e.EIntroduce? && e.chat == chat {
      TrustAllMembers(before, e.bots);
      var entry := TrustAll(before, e.bots);
      if |entry.trusted| == |before.trusted| {
        assert entry.trusted == before.trusted;
      } else {
        NewMember(before, e.bots);
      }
    }
  }

  /** A list that grew gained someone it did not hold. */
  lemma {:induction false} NewMember(entry: Entry, bots: seq<Bot>)
    ensures |TrustAll(entry, bots).trusted| > |entry.trusted| ==> !(Ids(bots) <= Members(entry.trusted))
  {
    if bots != [] {
      var first, last := bots[..|bots| - 1], bots[|bots| - 1];
      TrustAllMembers(entry, first);
      NewMember(entry, first);
      assert Ids(first) <= Ids(bots) by {
        assert bots == first + [last];
      }
      var before := TrustAll(entry, first);
      if |before.trusted| == |entry.trusted| && last.openId != "" && last.openId !in before.trusted {
        assert before.trusted == entry.trusted;
        assert last.openId in Ids(bots) && last.openId !in Members(entry.trusted);
      }
    }
  }

  /** Every clear of this chat carries a snapshot of at most this generation. */
  ghost predicate ClearsPredate(events: seq<Event>, chat: string, generation: nat) {
    forall e | e in events && e.EClear? && e.chat == chat :: e.generation <= generation
  }

  /** Pending context armed after a snapshot survives every clear made from that or an earlier snapshot. */
  lemma {:induction false} ArmedSurvivesStaleClears(chats: Chats, arming: Event, events: seq<Event>, chat: string)
    requires Arms(chats, arming, chat)
    requires ClearsPredate(events, chat, EntryOf(chats, chat).generation)
    ensures EntryOf(After(Step(chats, arming), events), chat).needsBaseline
    ensures EntryOf(After(Step(chats, arming), events), chat).generation > EntryOf(chats, chat).generation
  {
    if events == [] {
      StepBaseline(chats, arming, chat);
    } else {
      var first, last := events[..|events| - 1], events[|events| - 1];
      assert events == first + [last];
      ArmedSurvivesStaleClears(chats, arming, first, chat);
      StepBaseline(After(Step(chats, arming), first), last, chat);
      hide Step, EntryOf;
    }
  }

  /** A clear from the current snapshot does clear. */
  lemma CurrentClearClears(chats: Chats, chat: string)
    ensures !EntryOf(Clear(chats, chat, EntryOf(chats, chat).generation), chat).needsBaseline
    ensures forall other | other != chat :: EntryOf(Clear(chats, chat, EntryOf(chats, chat).generation), other) == EntryOf(chats, other)
  {
  }

  // ---- Redelivered events ----

  /** The event ids recorded in a chat, each dropped if it is among the 200 before it. */
  function RecordedIn(events: seq<Event>, chat: string): seq<string> {
    if events == [] then []
    else
      var recorded, e := RecordedIn(events[..|events| - 1], chat), events[|events| - 1];
      if e.EBotAdded? && e.chat == chat && e.eventId != "" && e.eventId !in LastIds(recorded) then recorded + [e.eventId]
      else recorded
  }

  lemma LastOfLonger(ids: seq<string>, id: string)
    ensures LastIds(LastIds(ids) + [id]) == LastIds(ids + [id])
  {
  }

  lemma {:induction false} SeenAreTheLast(events: seq<Event>, chat: string)
    ensures EntryOf(After(map[], events), chat).seen == LastIds(RecordedIn(events, chat))
  {
    if events != [] {
      hide LastIds, TrustAll, Members, Ids;
      var first, e := events[..|events| - 1], events[|events| - 1];
      SeenAreTheLast(first, chat);
      LastOfLonger(RecordedIn(first, chat), if e.EBotAdded? then e.eventId else "");
      if e.EIntroduce? {
        TrustAllMembers(EntryOf(After(map[], first), chat), e.bots);
      }
    }
  }

  /** Redelivering any of the last 200 recorded events changes nothing at all. */
  lemma RedeliveryIsIgnored(events: seq<Event>, chat: string, k: nat)
    requires k < |RecordedIn(events, chat)| && |RecordedIn(events, chat)| - MAX_SEEN_EVENT_IDS <= k
    ensures Step(After(map[], events), EBotAdded(chat, RecordedIn(events, chat)[k])) == After(map[], events)
  {
    SeenAreTheLast(events, chat);
    RecordedAreNamed(events, chat, k);
    var recorded := RecordedIn(events, chat);
    var last := LastIds(recorded);
    assert recorded[k] == last[k - (|recorded| - |last|)];
  }

  lemma {:induction false} RecordedAreNamed(events: seq<Event>, chat: string, k: nat)
    requires k < |RecordedIn(events, chat)|
    ensures RecordedIn(events, chat)[k] != ""
  {
    var recorded := RecordedIn(events[..|events| - 1], chat);
    if k < |recorded| {
      RecordedAreNamed(events[..|events| - 1], chat, k);
    }
  }

  lemma AddedMembers(trusted: seq<string>, added: seq<string>)
    requires forall id | id in added :: id !in trusted
    ensures Members(added) == Members(trusted + added) - Members(trusted)
  {
  }

  // ---- The store ----

  class ChatBotsStore {
    var chats: Chats

    constructor ()
      ensures chats == map[]
    {
      chats := map[];
    }

    method ObserveKnownBot(chat: string, bot: Bot)
      modifies this
      ensures chats == Observe(old(chats), chat, bot)
      ensures forall c :: EntryOf(chats, c).trusted == EntryOf(old(chats), c).trusted
    {
      if bot.openId == "" {
        return;
      }
      var entry := EntryOf(chats, chat);
      var next := WithName(entry, bot);
      if bot.openId !in next.known {
        next := next.(known := next.known + [bot.openId]);
      }
      if next != entry {
        chats := chats[chat := next];
      }
    }

    /** Returns the bots newly added to trust, in the order in which they were introduced. */
    method TrustIntroducedBots(chat: string, bots: seq<Bot>) returns (added: seq<string>)
      modifies this
      ensures chats == Introduce(old(chats), chat, bots)
      ensures EntryOf(chats, chat).trusted == EntryOf(old(chats), chat).trusted + added
      ensures Members(added) == Ids(bots) - Members(EntryOf(old(chats), chat).trusted)
    {
      ghost var before := EntryOf(chats, chat);
      var entry := EntryOf(chats, chat);
      added := [];
      var k := 0;
      assert bots[..0] == [];
      while k < |bots|
        invariant k <= |bots|
        invariant entry == TrustAll(before, bots[..k])
        invariant entry.trusted == before.trusted + added
        invariant forall id | id in added :: id !in before.trusted
      {
        var bot := bots[k];
        hide Members, Ids;
        assert bots[..k + 1][..k] == bots[..k];
        k := k + 1;
        if bot.openId == "" {
          continue;
        }
        entry := WithName(entry, bot);
        if bot.openId !in entry.known {
          entry := entry.(known := entry.known + [bot.openId]);
        }
        if bot.openId !in entry.trusted {
          added := added + [bot.openId];
          entry := entry.(trusted := entry.trusted + [bot.openId]);
        }
      }
      assert bots[..k] == bots;
      TrustAllMembers(before, bots);
      AddedMembers(before.trusted, added);
      hide TrustAll, Trust, Members, Ids, With, WithName;
      if added != [] {
        entry := WithBaseline(entry);
      }
      if entry != EntryOf(chats, chat) {
        chats := chats[chat := entry];
      }
    }

    method ClearBaselineIfCurrent(chat: string, generation: nat)
      modifies this
      ensures chats == Clear(old(chats), chat, generation)
    {
      if chat !in chats || !chats[chat].needsBaseline {
        return;
      }
      if chats[chat].generation != generation {
        return;
      }
      chats := chats[chat := chats[chat].(needsBaseline := false)];
    }

    /** Whether the event was newly recorded. */
    method RecordBotAdded(chat: string, eventId: string) returns (recorded: bool)
      modifies this
      ensures chats == BotAdded(old(chats), chat, eventId)
      ensures recorded <==> EntryOf(chats, chat).generation == EntryOf(old(chats), chat).generation + 1
      ensures !recorded ==> chats == old(chats)
    {
      var entry := EntryOf(chats, chat);
      if eventId != "" && eventId in entry.seen {
        return false;
      }
      var seen := entry.seen;
      if eventId != "" {
        seen := seen + [eventId];
        if |seen| > MAX_SEEN_EVENT_IDS {
          seen := seen[|seen| - MAX_SEEN_EVENT_IDS..];
        }
      }
      chats := chats[chat := WithBaseline(entry.(seen := seen))];
      return true;
    }
  }
}
