/**
 * Agent entries of the configuration file, as they are handed out with their secrets emptied and
 * as they come back. Which key names are secret is a parameter.
 */
module ConfigSecrets {
  import opened Wrappers
  import opened JsonValues

  type Names = string -> bool

  const EMPTY := Str("")

  /** Empty every value whose key names a secret, at any depth. */
  function Redact(v: Json, secret: Names): Json {
    match v
    case Arr(items) => Arr(seq(|items|, i requires 0 <= i < |items| => Redact(items[i], secret)))
    case Obj(fields) => Obj(map k | k in fields :: if secret(k) then EMPTY else Redact(fields[k], secret))
    case _ => v
  }

  /** One step into a document. */
  datatype Step = Member(key: string) | Element(i: nat)

  function Inside(v: Option<Json>, step: Step): Option<Json> {
    match step
    case Member(key) => Field(v, key)
    case Element(i) => Item(v, i)
  }

  /** What a document holds at a path, if anything. */
  function ValueAt(v: Option<Json>, path: seq<Step>): Option<Json>
    decreases |path|
  {
    if path == [] then v else ValueAt(Inside(v, path[0]), path[1..])
  }

  predicate NamesSecret(step: Step, secret: Names) {
    step.Member? && secret(step.key)
  }

  predicate Open(path: seq<Step>, secret: Names) {
    forall step | step in path :: !NamesSecret(step, secret)
  }

  /** Nothing but the empty string stands under a secret name, at any depth. */
  ghost predicate HidesSecrets(v: Json, secret: Names) {
    forall path: seq<Step>, key: string | secret(key) ::
      var at := ValueAt(Some(v), path + [Member(key)]); at.Some? ==> at == Some(EMPTY)
  }

  predicate SameKind(a: Json, b: Json) {
    match a
    case Arr(items) => b.Arr? && |b.items| == |items|
    case Obj(fields) => b.Obj? && b.fields.Keys == fields.Keys
    case _ => a == b
  }

  /** Away from secret names both documents have the same shape and the same values. */
  ghost predicate SameElsewhere(a: Json, b: Json, secret: Names) {
    forall path: seq<Step> | Open(path, secret) ::
      var x, y := ValueAt(Some(a), path), ValueAt(Some(b), path);
      x.Some? == y.Some? && (x.Some? ==> SameKind(x.value, y.value))
  }

  lemma {:induction false} RedactedAt(v: Json, path: seq<Step>, secret: Names)
    ensures Open(path, secret) ==>
      var x, y := ValueAt(Some(v), path), ValueAt(Some(Redact(v, secret)), path);
      x.Some? == y.Some? && (x.Some? ==> y.value == Redact(x.value, secret))
    ensures path != [] && NamesSecret(path[|path| - 1], secret) ==>
      var y := ValueAt(Some(Redact(v, secret)), path); y.Some? ==> y == Some(EMPTY)
    decreases |path|
  {
    if path != [] {
      var step, rest := path[0], path[1..];
      var x, y := Inside(Some(v), step), Inside(Some(Redact(v, secret)), step);
      assert path[0] in path && forall s | s in rest :: s in path;
      if x.None? {
        assert y.None?;
        NothingInside(rest);
      } else if NamesSecret(step, secret) {
        assert y == Some(EMPTY);
        if rest != [] {
          assert Inside(y, rest[0]).None?;
          NothingInside(rest[1..]);
        }
      } else {
        assert y == Some(Redact(x.value, secret));
        RedactedAt(x.value, rest, secret);
        assert rest != [] ==> rest[|rest| - 1] == path[|path| - 1];
      }
    }
  }

  lemma {:induction false} NothingInside(path: seq<Step>)
    ensures ValueAt(None, path).None?
  {
    if path != [] {
      NothingInside(path[1..]);
    }
  }

  /** What redaction gives whoever reads the copy. */
  lemma RedactionHides(v: Json, secret: Names)
    ensures HidesSecrets(Redact(v, secret), secret) && SameElsewhere(v, Redact(v, secret), secret)
  {
    forall path: seq<Step>, key: string | secret(key)
      ensures var at := ValueAt(Some(Redact(v, secret)), path + [Member(key)]); at.Some? ==> at == Some(EMPTY)
    {
      RedactedAt(v, path + [Member(key)], secret);
    }
    forall path: seq<Step> | Open(path, secret)
      ensures var x, y := ValueAt(Some(v), path), ValueAt(Some(Redact(v, secret)), path);
              x.Some? == y.Some? && (x.Some? ==> SameKind(x.value, y.value))
    {
      RedactedAt(v, path, secret);
    }
  }

  function Field(committed: Option<Json>, key: string): Option<Json> {
    if committed.Some? && committed.value.Obj? && key in committed.value.fields then Some(committed.value.fields[key]) else None
  }

  function Item(committed: Option<Json>, i: nat): Option<Json> {
    if committed.Some? && committed.value.Arr? && i < |committed.value.items| then Some(committed.value.items[i]) else None
  }

  /** Put the committed value back wherever a secret was submitted empty. */
  function Restore(v: Json, committed: Option<Json>, secret: Names): Json
    decreases v
  {
    match v
    case Arr(items) => Arr(seq(|items|, i requires 0 <= i < |items| => Restore(items[i], Item(committed, i), secret)))
    case Obj(fields) =>
      Obj(map k | k in fields ::
        if secret(k) && fields[k] == EMPTY && Field(committed, k).Some? then Field(committed, k).value
        else Restore(fields[k], Field(committed, k), secret))
    case _ => v
  }

  // ---- The laws ----

  /** Restoring undoes redacting. */
  lemma {:induction false} RestoreUndoesRedact(v: Json, secret: Names)
    ensures Restore(Redact(v, secret), Some(v), secret) == v
  {
    match v
    case Arr(items) =>
      forall i | 0 <= i < |items| ensures Restore(Redact(items[i], secret), Some(items[i]), secret) == items[i] {
        RestoreUndoesRedact(items[i], secret);
      }
      assert Restore(Redact(v, secret), Some(v), secret).items == items;
    case Obj(fields) =>
      forall k | k in fields && !secret(k) ensures Restore(Redact(fields[k], secret), Some(fields[k]), secret) == fields[k] {
        RestoreUndoesRedact(fields[k], secret);
      }
      assert Restore(Redact(v, secret), Some(v), secret).fields == fields;
    case _ =>
  }

  /** Restoring shows nothing: whatever is committed, the redacted projection is that of what was submitted. */
  lemma {:induction false} RestoreIsInvisible(v: Json, committed: Option<Json>, secret: Names)
    ensures Redact(Restore(v, committed, secret), secret) == Redact(v, secret)
    decreases v
  {
    match v
    case Arr(items) =>
      forall i | 0 <= i < |items|
        ensures Redact(Restore(items[i], Item(committed, i), secret), secret) == Redact(items[i], secret)
      {
        RestoreIsInvisible(items[i], Item(committed, i), secret);
      }
      assert Redact(Restore(v, committed, secret), secret).items == Redact(v, secret).items;
    case Obj(fields) =>
      forall k | k in fields && !secret(k)
        ensures Redact(Restore(fields[k], Field(committed, k), secret), secret) == Redact(fields[k], secret)
      {
        RestoreIsInvisible(fields[k], Field(committed, k), secret);
      }
      assert Redact(Restore(v, committed, secret), secret).fields == Redact(v, secret).fields;
    case _ =>
  }

  /** No secret was submitted empty where a value is committed. */
  ghost predicate NothingToRestore(v: Json, committed: Option<Json>, secret: Names)
    decreases v
  {
    match v
    case Arr(items) => forall i | 0 <= i < |items| :: NothingToRestore(items[i], Item(committed, i), secret)
    case Obj(fields) => forall k | k in fields ::
      if secret(k) && fields[k] == EMPTY && Field(committed, k).Some? then Field(committed, k).value == EMPTY
      else NothingToRestore(fields[k], Field(committed, k), secret)
    case _ => true
  }

  /** What is submitted survives unchanged exactly when no emptied secret has a committed value. */
  lemma {:induction false} RestoreChangesOnlySecrets(v: Json, committed: Option<Json>, secret: Names)
    ensures Restore(v, committed, secret) == v <==> NothingToRestore(v, committed, secret)
    decreases v
  {
    match v
    case Arr(items) =>
      forall i | 0 <= i < |items|
        ensures Restore(items[i], Item(committed, i), secret) == items[i] <==> NothingToRestore(items[i], Item(committed, i), secret)
      {
        RestoreChangesOnlySecrets(items[i], Item(committed, i), secret);
      }
      var restored := Restore(v, committed, secret).items;
      assert forall i | 0 <= i < |items| :: restored[i] == Restore(items[i], Item(committed, i), secret);
      assert NothingToRestore(v, committed, secret) ==> restored == items;
    case Obj(fields) =>
      forall k | k in fields
        ensures Restore(fields[k], Field(committed, k), secret) == fields[k] <==> NothingToRestore(fields[k], Field(committed, k), secret)
      {
        RestoreChangesOnlySecrets(fields[k], Field(committed, k), secret);
      }
      var restored := Restore(v, committed, secret).fields;
      assert NothingToRestore(v, committed, secret) ==> restored == fields;
      assert restored == fields ==> forall k | k in fields :: restored[k] == fields[k];
    case _ =>
  }

  // ---- Entries ----

  function IdOf(entry: Json): Option<string> {
    if entry.Obj? && "id" in entry.fields && entry.fields["id"].Str? then Some(entry.fields["id"].s) else None
  }

  /** The entry is an object whose `id` is this text. */
  predicate HasId(entry: Json, id: string) {
    entry.Obj? && "id" in entry.fields && entry.fields["id"] == Str(id)
  }

  lemma IdOfMeans(entry: Json, id: string)
    ensures IdOf(entry) == Some(id) <==> HasId(entry, id)
  {
  }

  /** The committed entry with this id; the last one when an id repeats. */
  function EntryWith(agents: seq<Json>, id: Option<string>): Option<Json> {
    if agents == [] || id.None? then None
    else if IdOf(agents[|agents| - 1]) == id then Some(agents[|agents| - 1])
    else EntryWith(agents[..|agents| - 1], id)
  }

  /** The last entry with an id is the one found, and none is exactly when there is none. */
  lemma {:induction false} EntryWithMeans(agents: seq<Json>, id: string, k: nat)
    ensures k < |agents| && HasId(agents[k], id) && (forall j | k < j < |agents| :: !HasId(agents[j], id)) ==>
              EntryWith(agents, Some(id)) == Some(agents[k])
    ensures EntryWith(agents, Some(id)) == None <==> forall j | 0 <= j < |agents| :: !HasId(agents[j], id)
  {
    if agents != [] {
      var n := |agents| - 1;
      IdOfMeans(agents[n], id);
      EntryWithMeans(agents[..n], id, k);
      assert forall j | 0 <= j < n :: agents[..n][j] == agents[j];
      hide HasId;
    }
  }

  /**
   * Each candidate is restored from the last committed entry of its id, and one that names no id, or
   * an id that is not committed, has nothing restored.
   */
  lemma MergeMeans(candidates: seq<Json>, agents: seq<Json>, secret: Names, i: nat, k: nat, id: string)
    requires i < |candidates|
    ensures HasId(candidates[i], id) && k < |agents| && HasId(agents[k], id)
            && (forall j | k < j < |agents| :: !HasId(agents[j], id)) ==>
              Merge(candidates, agents, secret)[i] == Restore(candidates[i], Some(agents[k]), secret)
    ensures HasId(candidates[i], id) && (forall j | 0 <= j < |agents| :: !HasId(agents[j], id)) ==>
              Merge(candidates, agents, secret)[i] == Restore(candidates[i], None, secret)
    ensures (forall named :: !HasId(candidates[i], named)) ==>
              Merge(candidates, agents, secret)[i] == Restore(candidates[i], None, secret)
  {
    IdOfMeans(candidates[i], id);
    EntryWithMeans(agents, id, k);
    if IdOf(candidates[i]).Some? {
      IdOfMeans(candidates[i], IdOf(candidates[i]).value);
    }
    hide HasId, IdOf, Restore;
  }

  function Merge(candidates: seq<Json>, agents: seq<Json>, secret: Names): (merged: seq<Json>)
    ensures |merged| == |candidates|
  {
    seq(|candidates|, i requires 0 <= i < |candidates| =>
      Restore(candidates[i], EntryWith(agents, IdOf(candidates[i])), secret))
  }

  method MergeAgentEntries(candidates: seq<Json>, agents: seq<Json>, secret: Names) returns (merged: seq<Json>)
    ensures merged == Merge(candidates, agents, secret)
  {
    var committedById: map<string, Json> := map[];
    var k := 0;
    while k < |agents|
      invariant k <= |agents|
      invariant forall id :: EntryWith(agents[..k], Some(id)) == if id in committedById then Some(committedById[id]) else None
    {
      assert agents[..k + 1][..k] == agents[..k];
      var id := IdOf(agents[k]);
      if id.Some? {
        committedById := committedById[id.value := agents[k]];
      }
      k := k + 1;
    }
    assert agents[..k] == agents;
    merged := [];
    while |merged| < |candidates|
      invariant |merged| <= |candidates|
      invariant forall i | 0 <= i < |merged| :: merged[i] == Merge(candidates, agents, secret)[i]
    {
      var candidate := candidates[|merged|];
      var id := IdOf(candidate);
      var committed := if id.Some? && id.value in committedById then Some(committedById[id.value]) else None;
      assert committed == EntryWith(agents, id);
      merged := merged + [Restore(candidate, committed, secret)];
    }
  }

  function RedactAll(agents: seq<Json>, secret: Names): (r: seq<Json>)
    ensures |r| == |agents|
  {
    seq(|agents|, i requires 0 <= i < |agents| => Redact(agents[i], secret))
  }

  predicate UniqueIds(agents: seq<Json>) {
    && (forall i | 0 <= i < |agents| :: agents[i].Obj? && "id" in agents[i].fields && agents[i].fields["id"].Str?)
    && (forall i, j | 0 <= i < j < |agents| :: agents[i].fields["id"] != agents[j].fields["id"])
  }

  lemma {:induction false} EntryIsUnique(agents: seq<Json>, k: nat)
    requires UniqueIds(agents) && k < |agents|
    ensures EntryWith(agents, IdOf(agents[k])) == Some(agents[k])
    decreases |agents|
  {
    if k < |agents| - 1 {
      EntryIsUnique(agents[..|agents| - 1], k);
    }
  }

  /** The agents at these positions, in this order: a reordering, or any selection. */
  function Picked(agents: seq<Json>, picks: seq<nat>): (r: seq<Json>)
    requires forall i | 0 <= i < |picks| :: picks[i] < |agents|
    ensures |r| == |picks|
  {
    seq(|picks|, i requires 0 <= i < |picks| => agents[picks[i]])
  }

  lemma RedactKeepsId(entry: Json, secret: Names)
    ensures !secret("id") ==> IdOf(Redact(entry, secret)) == IdOf(entry)
  {
    if entry.Obj? && "id" in entry.fields {
      assert entry.fields["id"].Str? ==> Redact(entry.fields["id"], secret) == entry.fields["id"];
    }
  }

  /** Sending back the emptied entries in any order commits the original entries in that order. */
  lemma MergeRestoresOriginals(agents: seq<Json>, picks: seq<nat>, secret: Names)
    requires UniqueIds(agents) && !secret("id")
    requires forall i | 0 <= i < |picks| :: picks[i] < |agents|
    ensures Merge(Picked(RedactAll(agents, secret), picks), agents, secret) == Picked(agents, picks)
  {
    var sent := Picked(RedactAll(agents, secret), picks);
    forall i | 0 <= i < |picks| ensures Merge(sent, agents, secret)[i] == agents[picks[i]] {
      var original := agents[picks[i]];
      RedactKeepsId(original, secret);
      EntryIsUnique(agents, picks[i]);
      RestoreUndoesRedact(original, secret);
    }
  }

  /** What is handed out after a merge is the redacted form of what was sent. */
  lemma MergeIsInvisible(candidates: seq<Json>, agents: seq<Json>, secret: Names)
    ensures RedactAll(Merge(candidates, agents, secret), secret) == RedactAll(candidates, secret)
  {
    forall i | 0 <= i < |candidates| {
      RestoreIsInvisible(candidates[i], EntryWith(agents, IdOf(candidates[i])), secret);
    }
  }

  // ---- The service ----

  datatype Config = Config(resolved: int, plugins: Option<int>)

  function AgentsOf(raw: map<string, Json>): seq<Json> {
    if "agents" in raw && raw["agents"].Arr? then raw["agents"].items else []
  }

  /** The committed file content and its resolved form; a refused candidate changes neither. */
  class ConfigService {
    const secret: Names
    const resolve: map<string, Json> -> Result<Config, string>
    var raw: map<string, Json>
    var config: Config

    constructor (secret: Names, resolve: map<string, Json> -> Result<Config, string>, raw: map<string, Json>, config: Config)
      ensures this.secret == secret && this.resolve == resolve && this.raw == raw && this.config == config
    {
      this.secret, this.resolve, this.raw, this.config := secret, resolve, raw, config;
    }

    method ReadAgents() returns (copy: seq<Json>)
      ensures copy == RedactAll(AgentsOf(raw), secret)
      ensures forall i | 0 <= i < |copy| ::
        HidesSecrets(copy[i], secret) && SameElsewhere(AgentsOf(raw)[i], copy[i], secret)
      ensures !secret("id") ==> forall i | 0 <= i < |copy| :: IdOf(copy[i]) == IdOf(AgentsOf(raw)[i])
    {
      copy := RedactAll(AgentsOf(raw), secret);
      forall i | 0 <= i < |copy|
        ensures HidesSecrets(copy[i], secret) && SameElsewhere(AgentsOf(raw)[i], copy[i], secret)
        ensures !secret("id") ==> IdOf(copy[i]) == IdOf(AgentsOf(raw)[i])
      {
        RedactionHides(AgentsOf(raw)[i], secret);
        RedactKeepsId(AgentsOf(raw)[i], secret);
      }
    }

    method ReplaceAgents(candidates: seq<Json>) returns (r: Result<seq<Json>, string>)
      modifies this
      ensures var next := old(raw)["agents" := Arr(Merge(candidates, AgentsOf(old(raw)), secret))];
              if resolve(next).Success?
              then r == Success(RedactAll(candidates, secret)) && raw == next
                   && config.resolved == resolve(next).value.resolved
                   && (old(config).plugins.Some? ==> config.plugins == old(config).plugins)
              else r == Failure(resolve(next).error) && raw == old(raw) && config == old(config)
      ensures forall k | k != "agents" :: k in raw <==> k in old(raw)
      ensures forall k | k != "agents" && k in raw :: raw[k] == old(raw)[k]
    {
      var merged := MergeAgentEntries(candidates, AgentsOf(raw), secret);
      var candidateRaw := raw["agents" := Arr(merged)];
      var resolved := resolve(candidateRaw);
      if resolved.Failure? {
        return Failure(resolved.error);
      }
      MergeIsInvisible(candidates, AgentsOf(raw), secret);
      config := if config.plugins.None? then resolved.value else resolved.value.(plugins := config.plugins);
      raw := candidateRaw;
      var copy := ReadAgents();
      return Success(copy);
    }
  }

  /** Reading the agents and replacing them by any reordering commits that reordering and nothing else. */
  method ReorderAgents(service: ConfigService, picks: seq<nat>) returns (r: Result<seq<Json>, string>)
    requires UniqueIds(AgentsOf(service.raw)) && !service.secret("id")
    requires forall i | 0 <= i < |picks| :: picks[i] < |AgentsOf(service.raw)|
    modifies service
    ensures r.Success? ==> service.raw == old(service.raw)["agents" := Arr(Picked(AgentsOf(old(service.raw)), picks))]
    ensures r.Failure? ==> service.raw == old(service.raw) && service.config == old(service.config)
  {
    var agents := service.ReadAgents();
    MergeRestoresOriginals(AgentsOf(service.raw), picks, service.secret);
    r := service.ReplaceAgents(Picked(agents, picks));
  }
}
