/**
 The Kafka runner (workflow-sdk-go/kafkarunner): assignment tokens, one record at a time,
 callback before commit, and a cache of confirmed deduplication ids.
 */
module Kafka {
  import opened Values

  type Partition = (string, int)
  type Token = nat

  // ---- ownership.go ----

  type Owned = map<Partition, Token>

  /** A partition that is already held keeps its assignment. */
  function Assign(m: Owned, p: Partition, nextToken: Token): Owned {
    if p in m then m else m[p := nextToken]
  }

  function Revoke(m: Owned, p: Partition): Owned {
    m - {p}
  }

  /** A commit needs the very assignment under which the record was fetched. */
  predicate MayCommit(m: Owned, p: Partition, token: Token) {
    p in m && m[p] == token
  }

  /** Work begun under an assignment can never commit after it is revoked, even if handed back. */
  lemma RevokedNeverCommits(m: Owned, p: Partition, token: Token, nextToken: Token)
    requires token < nextToken
    ensures !MayCommit(Revoke(m, p), p, token) && !MayCommit(Assign(Revoke(m, p), p, nextToken), p, token)
  {
  }

  /** The tokens of those of the listed partitions that are held. */
  function TokensOf(m: Owned, topics: seq<Partition>): set<Token> {
    set p | p in m && p in topics :: m[p]
  }

  lemma TokensGrow(m: Owned, topics: seq<Partition>, p: Partition)
    ensures TokensOf(m, topics + [p]) == TokensOf(m, topics) + if p in m then {m[p]} else {}
    ensures p in m && p in topics ==> m[p] in TokensOf(m, topics)
  {
  }

  /** Tokens in use are not cancelled, and no token is handed out twice. */
  ghost predicate Live(m: Owned, cancelled: set<Token>, nextToken: Token) {
    && (forall p :: p in m ==> m[p] < nextToken && m[p] !in cancelled)
    && (forall t :: t in cancelled ==> t < nextToken)
    && (forall p, q :: p in m && q in m && m[p] == m[q] ==> p == q)
  }

  lemma RevokeLive(m: Owned, cancelled: set<Token>, nextToken: Token, p: Partition)
    requires Live(m, cancelled, nextToken) && p in m
    ensures Live(Revoke(m, p), cancelled + {m[p]}, nextToken)
  {
  }

  /** The `ownership` object; tokens stand for the identities of assignment contexts. */
  class Ownership {
    var partitions: Owned
    var cancelled: set<Token>
    var nextToken: Token

    ghost predicate Valid()
      reads this
    {
      Live(partitions, cancelled, nextToken)
    }

    constructor ()
      ensures Valid() && partitions == map[] && cancelled == {} && nextToken == 0
    {
      partitions := map[];
      cancelled := {};
      nextToken := 0;
    }

    /** Held partitions keep their token, the others of the list get new ones. */
    method Assigned(topics: seq<Partition>)
      requires Valid()
      modifies this
      ensures Valid() && cancelled == old(cancelled) && old(nextToken) <= nextToken
      ensures partitions.Keys == old(partitions).Keys + set p | p in topics
      ensures forall p :: p in old(partitions) ==> partitions[p] == old(partitions)[p]
      ensures forall p :: p in partitions && p !in old(partitions) ==> old(nextToken) <= partitions[p]
    {
      for i := 0 to |topics|
        invariant Valid() && cancelled == old(cancelled) && old(nextToken) <= nextToken
        invariant partitions.Keys == old(partitions).Keys + set p | p in topics[..i]
        invariant forall p :: p in old(partitions) ==> partitions[p] == old(partitions)[p]
        invariant forall p :: p in partitions && p !in old(partitions) ==> old(nextToken) <= partitions[p]
      {
        assert topics[..i + 1] == topics[..i] + [topics[i]];
        if topics[i] !in partitions {
          partitions := partitions[topics[i] := nextToken];
          nextToken := nextToken + 1;
        }
      }
      assert topics[..|topics|] == topics;
    }

    /** The listed partitions are given up and their tokens cancelled, for ever. */
    method Revoked(topics: seq<Partition>)
      requires Valid()
      modifies this
      ensures Valid() && nextToken == old(nextToken)
      ensures partitions == old(partitions) - set p | p in topics
      ensures cancelled == old(cancelled) + TokensOf(old(partitions), topics)
    {
      for i := 0 to |topics|
        invariant Valid() && nextToken == old(nextToken)
        invariant partitions == old(partitions) - set p | p in topics[..i]
        invariant cancelled == old(cancelled) + TokensOf(old(partitions), topics[..i])
      {
        assert topics[..i + 1] == topics[..i] + [topics[i]];
        TokensGrow(old(partitions), topics[..i], topics[i]);
        hide TokensOf, Live;
        if topics[i] in partitions {
          RevokeLive(partitions, cancelled, nextToken, topics[i]);
          cancelled := cancelled + {partitions[topics[i]]};
          partitions := partitions - {topics[i]};
        }
      }
      assert topics[..|topics|] == topics;
    }

    method Get(p: Partition) returns (owner: Option<Token>)
      ensures owner == if p in partitions then Some(partitions[p]) else None
    {
      owner := if p in partitions then Some(partitions[p]) else None;
    }

    /** The guard of `commit`: exactly the current assignment may go on. */
    method Guard(p: Partition, owner: Token) returns (ok: bool)
      requires Valid()
      ensures ok <==> MayCommit(partitions, p, owner)
      ensures owner in cancelled ==> !ok
    {
      ok := !(p !in partitions || partitions[p] != owner || owner in cancelled);
    }
  }

  // ---- the deduplication cache ----

  type Dedup = map<string, int>

  predicate Seen(m: Dedup, window: int, now: int, id: string) {
    id in m && now - m[id] < window
  }

  function Swept(m: Dedup, window: int, now: int): Dedup {
    map k | k in m && !(m[k] < now - window) :: m[k]
  }

  /** The sweep changes no answer, then or later. */
  lemma SweepUnobservable(m: Dedup, window: int, now: int, later: int, id: string)
    requires now <= later
    ensures Seen(Swept(m, window, now), window, later, id) <==> Seen(m, window, later, id)
  {
  }

  class DedupCache {
    const window: int
    var entries: Dedup

    constructor (window: int)
      ensures entries == map[] && this.window == window
    {
      this.window := window;
      entries := map[];
    }

    method SeenRecently(id: string, now: int) returns (seen: bool)
      ensures seen <==> id in entries && now - entries[id] < window
    {
      seen := false;
      if id in entries {
        seen := now - entries[id] < window;
      }
    }

    method Confirm(id: string, now: int)
      modifies this`entries
      ensures entries == old(entries)[id := now]
    {
      entries := entries[id := now];
    }

    method Sweep(now: int)
      modifies this`entries
      ensures entries == Swept(old(entries), window, now)
      ensures forall id :: id in entries <==> id in old(entries) && now - old(entries)[id] <= window
      ensures forall id, later :: now <= later ==> (Seen(entries, window, later, id) <==> Seen(old(entries), window, later, id))
    {
      var pending := entries.Keys;
      while pending != {}
        invariant pending <= old(entries).Keys
        invariant entries.Keys <= old(entries).Keys
        invariant forall k :: k in entries ==> entries[k] == old(entries)[k]
        invariant forall k :: k in pending ==> k in entries
        invariant forall k :: k in old(entries) && k !in pending ==> (k in entries <==> !(old(entries)[k] < now - window))
        decreases |pending|
      {
        var k :| k in pending;
        if entries[k] < now - window {
          entries := entries - {k};
        }
        pending := pending - {k};
      }
      assert entries == Swept(old(entries), window, now);
      forall id, later | now <= later ensures Seen(entries, window, later, id) <==> Seen(old(entries), window, later, id) {
        SweepUnobservable(old(entries), window, now, later, id);
      }
    }

    /**
     dispatchRecord: `confirmed` is the answer of the retried callback. A record is done only if
     it has a job id and was confirmed, now or, by its deduplication id, within the window; only
     a confirmation enters the cache.
     */
    method DispatchRecord(rec: Record, now: int, confirmed: bool) returns (done: bool)
      modifies this`entries
      ensures done <==> rec.jobId != "" && (confirmed || (rec.dedupId != "" && Seen(old(entries), window, now, rec.dedupId)))
      ensures entries == if rec.jobId != "" && rec.dedupId != "" && confirmed && !Seen(old(entries), window, now, rec.dedupId)
                         then old(entries)[rec.dedupId := now] else old(entries)
    {
      if rec.jobId == "" {
        return false;
      }
      if rec.dedupId != "" {
        var seen := SeenRecently(rec.dedupId, now);
        if seen {
          return true;
        }
      }
      if !confirmed {
        return false;
      }
      if rec.dedupId != "" {
        Confirm(rec.dedupId, now);
      }
      done := true;
    }
  }

  // ---- the protocol ----

  /** A dispatch event; a record that does not decode has no job id. */
  datatype Record = Record(jobId: string, dedupId: string)

  /** The record being processed and the assignment captured when it was polled. */
  datatype Work = Work(partition: Partition, offset: nat, token: Token, settled: bool)

  /** One consume loop; several of them share the deduplication cache of their runner. */
  datatype Client = Client(runner: nat, owned: Owned, position: map<Partition, nat>, work: Option<Work>, stopped: bool)

  datatype State = State(
    now: int,
    window: int,
    log: map<Partition, seq<Record>>,
    committed: map<Partition, nat>,
    confirmed: set<(Partition, nat)>,
    clients: map<nat, Client>,
    dedup: map<nat, Dedup>,
    nextToken: Token)

  function LogOf(s: State, p: Partition): seq<Record> {
    if p in s.log then s.log[p] else []
  }

  function CommittedOf(s: State, p: Partition): nat {
    if p in s.committed then s.committed[p] else 0
  }

  function DedupOf(s: State, r: nat): Dedup {
    if r in s.dedup then s.dedup[r] else map[]
  }

  datatype Action =
    | Tick(elapsed: nat)
    | Produce(partition: Partition, record: Record)
    | Join(client: nat, runner: nat)
    | GetAssigned(client: nat, partition: Partition)
    | GetRevoked(client: nat, partition: Partition)
    | PollRecord(client: nat, partition: Partition)
    | Skip(client: nat)
    | Confirmed(client: nat)
    | ConfirmedUnseen(client: nat)
    | Abandon(client: nat)
    | Commit(client: nat)
    | CommitFails(client: nat, applied: bool)
    | Sweep(runner: nat)
    | Halt(client: nat)

  ghost predicate Unowned(s: State, p: Partition) {
    forall c :: c in s.clients ==> p !in s.clients[c].owned
  }

  function PutClient(s: State, c: nat, v: Client): State {
    s.(clients := s.clients[c := v])
  }

  predicate Busy(s: State, c: nat) {
    c in s.clients && !s.clients[c].stopped && s.clients[c].work.Some?
  }

  /** The record client `c` works on; it was in the log when it was polled. */
  function Current(s: State, c: nat): Option<Record> {
    if Busy(s, c) && s.clients[c].work.value.offset < |LogOf(s, s.clients[c].work.value.partition)|
    then Some(LogOf(s, s.clients[c].work.value.partition)[s.clients[c].work.value.offset])
    else None
  }

  ghost predicate Moves(s: State, act: Action, s': State) {
    match act
    case Tick(elapsed) => s' == s.(now := s.now + elapsed)
    case Produce(p, rec) => s' == s.(log := s.log[p := LogOf(s, p) + [rec]])
    case Join(c, r) => c !in s.clients && s' == PutClient(s, c, Client(r, map[], map[], None, false))
    case GetAssigned(c, p) =>
      && c in s.clients && !s.clients[c].stopped && Unowned(s, p)
      && var v := s.clients[c];
         s' == PutClient(s, c, v.(owned := Assign(v.owned, p, s.nextToken), position := v.position[p := CommittedOf(s, p)])).(nextToken := s.nextToken + 1)
    case GetRevoked(c, p) =>
      c in s.clients && s' == PutClient(s, c, s.clients[c].(owned := Revoke(s.clients[c].owned, p)))
    case PollRecord(c, p) =>
      && c in s.clients && !s.clients[c].stopped && s.clients[c].work == None
      && var v := s.clients[c];
         && p in v.owned && p in v.position && v.position[p] < |LogOf(s, p)|
         && s' == PutClient(s, c, v.(work := Some(Work(p, v.position[p], v.owned[p], false)), position := v.position[p := v.position[p] + 1]))
    case Skip(c) =>
      && Current(s, c).Some? && Current(s, c).value.jobId != "" && Current(s, c).value.dedupId != ""
      && Seen(DedupOf(s, s.clients[c].runner), s.window, s.now, Current(s, c).value.dedupId)
      && s' == PutClient(s, c, s.clients[c].(work := Some(s.clients[c].work.value.(settled := true))))
    case Confirmed(c) =>
      && Current(s, c).Some? && Current(s, c).value.jobId != ""
      && var v, w, id := s.clients[c], s.clients[c].work.value, Current(s, c).value.dedupId;
         s' == PutClient(s, c, v.(work := Some(w.(settled := true)))).(
                 confirmed := s.confirmed + {(w.partition, w.offset)},
                 dedup := if id != "" then s.dedup[v.runner := DedupOf(s, v.runner)[id := s.now]] else s.dedup)
    case ConfirmedUnseen(c) =>
      && Current(s, c).Some? && Current(s, c).value.jobId != ""
      && var w := s.clients[c].work.value; s' == s.(confirmed := s.confirmed + {(w.partition, w.offset)})
    case Abandon(c) =>
      && Busy(s, c)
      && var v := s.clients[c];
         s' == PutClient(s, c, if MayCommit(v.owned, v.work.value.partition, v.work.value.token) then v.(stopped := true) else v.(work := None))
    case Commit(c) =>
      && Busy(s, c) && s.clients[c].work.value.settled
      && var v, w := s.clients[c], s.clients[c].work.value;
         if MayCommit(v.owned, w.partition, w.token)
         then s' == PutClient(s, c, v.(work := None)).(committed := s.committed[w.partition := w.offset + 1])
         else s' == PutClient(s, c, v.(work := None))
    case CommitFails(c, applied) =>
      && Busy(s, c) && s.clients[c].work.value.settled
      && var v, w := s.clients[c], s.clients[c].work.value;
         && MayCommit(v.owned, w.partition, w.token)
         && s' == PutClient(s, c, v.(stopped := true)).(committed := if applied then s.committed[w.partition := w.offset + 1] else s.committed)
    case Sweep(r) => r in s.dedup && s' == s.(dedup := s.dedup[r := Swept(s.dedup[r], s.window, s.now)])
    case Halt(c) => c in s.clients && s' == PutClient(s, c, s.clients[c].(stopped := true))
  }

  ghost predicate Initial(s: State) {
    s.clients == map[] && s.confirmed == {} && s.dedup == map[] && s.committed == map[] && s.log == map[]
  }

  /** Any number of runners and partitions, and any interleaving of their steps. */
  ghost predicate IsRun(states: seq<State>, actions: seq<Action>) {
    && |states| == |actions| + 1
    && Initial(states[0])
    && forall i :: 0 <= i < |actions| ==> Moves(states[i], actions[i], states[i + 1])
  }

  // ---- the invariant ----

  ghost predicate ConfirmedId(s: State, id: string) {
    exists p, o :: (p, o) in s.confirmed && o < |LogOf(s, p)| && LogOf(s, p)[o].dedupId == id
  }

  /** The engine has confirmed this record, or a record with the same deduplication id. */
  ghost predicate Covered(s: State, p: Partition, o: nat) {
    && o < |LogOf(s, p)|
    && ((p, o) in s.confirmed || (LogOf(s, p)[o].dedupId != "" && ConfirmedId(s, LogOf(s, p)[o].dedupId)))
  }

  ghost predicate AllCovered(s: State) {
    forall p, o: nat {:trigger Covered(s, p, o)} :: o < CommittedOf(s, p) ==> Covered(s, p, o)
  }

  ghost predicate CacheConfirmed(s: State) {
    forall r, id :: r in s.dedup && id in s.dedup[r] ==> ConfirmedId(s, id)
  }

  /** Position and work of a client on one partition it owns, against the committed offset. */
  predicate Aligned(v: Client, p: Partition, committed: nat)
    requires p in v.owned
  {
    if v.work.Some? && v.work.value.partition == p && v.work.value.token == v.owned[p]
    then v.work.value.offset == committed
    else p in v.position && v.position[p] == committed
  }

  ghost predicate ClientOk(s: State, v: Client) {
    && (forall p :: p in v.owned ==> v.owned[p] < s.nextToken)
    && (v.work.Some? ==> v.work.value.token < s.nextToken && v.work.value.offset < |LogOf(s, v.work.value.partition)|)
    && (v.work.Some? && v.work.value.settled ==> Covered(s, v.work.value.partition, v.work.value.offset))
    && (!v.stopped ==> forall p :: p in v.owned ==> Aligned(v, p, CommittedOf(s, p)))
    && (!v.stopped && v.work.Some? && MayCommit(v.owned, v.work.value.partition, v.work.value.token) ==>
          v.work.value.partition in v.position && v.position[v.work.value.partition] == v.work.value.offset + 1)
  }

  ghost predicate Exclusive(s: State) {
    forall c, d, p :: c in s.clients && d in s.clients && p in s.clients[c].owned && p in s.clients[d].owned ==> c == d
  }

  ghost predicate Inv(s: State) {
    AllCovered(s) && CacheConfirmed(s) && Exclusive(s) && forall c :: c in s.clients ==> ClientOk(s, s.clients[c])
  }

  /** Logs and confirmations only grow. */
  ghost predicate Extends(s: State, s': State) {
    && s.confirmed <= s'.confirmed
    && forall p :: |LogOf(s, p)| <= |LogOf(s', p)| && LogOf(s', p)[..|LogOf(s, p)|] == LogOf(s, p)
  }

  lemma ExtendedLog(s: State, s': State, p: Partition, o: nat)
    requires Extends(s, s') && o < |LogOf(s, p)|
    ensures o < |LogOf(s', p)| && LogOf(s', p)[o] == LogOf(s, p)[o]
  {
    assert LogOf(s', p)[..|LogOf(s, p)|][o] == LogOf(s, p)[o];
  }

  lemma ConfirmedIdKept(s: State, s': State, id: string)
    requires Extends(s, s') && ConfirmedId(s, id)
    ensures ConfirmedId(s', id)
  {
    var p, o :| (p, o) in s.confirmed && o < |LogOf(s, p)| && LogOf(s, p)[o].dedupId == id;
    ExtendedLog(s, s', p, o);
    assert (p, o) in s'.confirmed;
  }

  lemma CoveredKept(s: State, s': State, p: Partition, o: nat)
    requires Extends(s, s') && Covered(s, p, o)
    ensures Covered(s', p, o)
  {
    hide ConfirmedId;
    ExtendedLog(s, s', p, o);
    if LogOf(s, p)[o].dedupId != "" && ConfirmedId(s, LogOf(s, p)[o].dedupId) {
      ConfirmedIdKept(s, s', LogOf(s, p)[o].dedupId);
    }
  }

  lemma MovesExtends(s: State, act: Action, s': State)
    requires Moves(s, act, s')
    ensures Extends(s, s') && s.nextToken <= s'.nextToken
  {
  }

  /** What a step leaves to the clients it is not about. */
  lemma ClientKept(s: State, s': State, v: Client)
    requires Extends(s, s') && s.nextToken <= s'.nextToken && ClientOk(s, v)
    requires !v.stopped ==> forall p :: p in v.owned ==> CommittedOf(s', p) == CommittedOf(s, p)
    ensures ClientOk(s', v)
  {
    hide Covered;
    if v.work.Some? {
      ExtendedLog(s, s', v.work.value.partition, v.work.value.offset);
      if v.work.value.settled {
        CoveredKept(s, s', v.work.value.partition, v.work.value.offset);
      }
    }
  }

  lemma AllCoveredKept(s: State, s': State)
    requires Extends(s, s') && AllCovered(s) && forall p :: CommittedOf(s', p) == CommittedOf(s, p)
    ensures AllCovered(s')
  {
    hide Covered;
    forall p, o: nat | o < CommittedOf(s', p) ensures Covered(s', p, o) {
      CoveredKept(s, s', p, o);
    }
  }

  lemma CacheKept(s: State, s': State)
    requires Extends(s, s') && CacheConfirmed(s) && s'.dedup == s.dedup
    ensures CacheConfirmed(s')
  {
    hide ConfirmedId;
    forall r, id | r in s'.dedup && id in s'.dedup[r] ensures ConfirmedId(s', id) {
      ConfirmedIdKept(s, s', id);
    }
  }

  /** A step of client `c` that commits nothing, confirms nothing and takes no partition. */
  lemma ClientStep(s: State, c: nat, v: Client)
    requires Inv(s) && c in s.clients && ClientOk(s, v) && v.owned.Keys <= s.clients[c].owned.Keys
    ensures Inv(PutClient(s, c, v))
  {
    hide Covered;
    var s' := PutClient(s, c, v);
    SameCovered(s, s');
    forall d | d in s'.clients ensures ClientOk(s', s'.clients[d]) {
      ClientKept(s, s', s'.clients[d]);
    }
  }

  lemma SameCovered(s: State, s': State)
    requires s'.log == s.log && s'.confirmed == s.confirmed && s'.committed == s.committed && s'.dedup == s.dedup && Inv(s)
    ensures Extends(s, s') && AllCovered(s') && CacheConfirmed(s')
  {
    hide Covered;
    AllCoveredKept(s, s');
    CacheKept(s, s');
  }

  lemma LocalKept(s: State, act: Action, s': State)
    requires Inv(s) && Moves(s, act, s') && (act.GetRevoked? || act.PollRecord? || act.Skip? || act.Abandon? || act.Halt?)
    ensures Inv(s')
  {
    hide Covered, AllCovered, CacheConfirmed, Exclusive, LogOf, ClientOk;
    var c := act.client;
    var v := s.clients[c];
    assert ClientOk(s, v);
    match act {
      case GetRevoked(_, p) => RevokedOk(s, v, p);
      case PollRecord(_, p) => PolledOk(s, v, p);
      case Skip(_) =>
        SkipCovered(s, c);
        SkippedOk(s, v);
      case Abandon(_) => DroppedOk(s, v);
      case Halt(_) => DroppedOk(s, v);
    }
    assert ClientOk(s, s'.clients[c]);
    assert v.owned.Keys >= s'.clients[c].owned.Keys && s' == PutClient(s, c, s'.clients[c]);
    hide Moves;
    ClientStep(s, c, s'.clients[c]);
  }

  lemma RevokedOk(s: State, v: Client, p: Partition)
    requires ClientOk(s, v)
    ensures ClientOk(s, v.(owned := Revoke(v.owned, p)))
  {
    hide Covered, LogOf;
  }

  lemma PolledOk(s: State, v: Client, p: Partition)
    requires ClientOk(s, v) && !v.stopped && v.work == None && p in v.owned && p in v.position && v.position[p] < |LogOf(s, p)|
    ensures ClientOk(s, v.(work := Some(Work(p, v.position[p], v.owned[p], false)), position := v.position[p := v.position[p] + 1]))
  {
    hide Covered, LogOf;
  }

  lemma SkippedOk(s: State, v: Client)
    requires ClientOk(s, v) && v.work.Some? && Covered(s, v.work.value.partition, v.work.value.offset)
    ensures ClientOk(s, v.(work := Some(v.work.value.(settled := true))))
  {
    hide Covered, LogOf;
  }

  /** A record whose id is cached is covered. */
  lemma SkipCovered(s: State, c: nat)
    requires Inv(s) && Current(s, c).Some? && Current(s, c).value.dedupId != ""
    requires Seen(DedupOf(s, s.clients[c].runner), s.window, s.now, Current(s, c).value.dedupId)
    ensures Covered(s, s.clients[c].work.value.partition, s.clients[c].work.value.offset)
  {
    hide ConfirmedId, AllCovered, Exclusive;
  }

  lemma WorldKept(s: State, act: Action, s': State)
    requires Inv(s) && Moves(s, act, s') && (act.Tick? || act.Produce? || act.ConfirmedUnseen?)
    ensures Inv(s')
  {
    MovesExtends(s, act, s');
    hide Covered, Aligned;
    AllCoveredKept(s, s');
    CacheKept(s, s');
    forall d | d in s'.clients ensures ClientOk(s', s'.clients[d]) {
      ClientKept(s, s', s'.clients[d]);
    }
  }

  lemma SweepKept(s: State, r: nat, s': State)
    requires Inv(s) && Moves(s, Sweep(r), s')
    ensures Inv(s')
  {
    MovesExtends(s, Sweep(r), s');
    hide Covered, Aligned;
    AllCoveredKept(s, s');
    forall q, id | q in s'.dedup && id in s'.dedup[q] ensures ConfirmedId(s', id) {
      assert id in s.dedup[q];
      ConfirmedIdKept(s, s', id);
    }
    forall d | d in s'.clients ensures ClientOk(s', s'.clients[d]) {
      ClientKept(s, s', s'.clients[d]);
    }
  }

  lemma JoinKept(s: State, act: Action, s': State)
    requires Inv(s) && Moves(s, act, s') && (act.Join? || act.GetAssigned?)
    ensures Inv(s')
  {
    MovesExtends(s, act, s');
    hide Covered, AllCovered, CacheConfirmed, ConfirmedId, Aligned;
    SameCovered(s, s');
    ExclusiveKept(s, act, s');
    hide Exclusive, Unowned;
    forall d | d in s'.clients ensures ClientOk(s', s'.clients[d]) {
      if d != act.client {
        ClientKept(s, s', s'.clients[d]);
      } else if act.GetAssigned? {
        AssignedOk(s, d, act.partition);
        SameOk(s.(nextToken := s.nextToken + 1), s', s'.clients[d]);
      }
    }
  }

  lemma ExclusiveKept(s: State, act: Action, s': State)
    requires Exclusive(s) && Moves(s, act, s') && (act.Join? || act.GetAssigned?)
    ensures Exclusive(s')
  {
  }

  /** A client is in order whatever the other clients do. */
  lemma SameOk(s: State, s': State, v: Client)
    requires ClientOk(s, v) && s' == s.(clients := s'.clients)
    ensures ClientOk(s', v)
  {
    hide Covered;
    if v.work.Some? && v.work.value.settled {
      CoveredKept(s, s', v.work.value.partition, v.work.value.offset);
    }
  }

  /** The new assignment starts at the committed offset, under a token no work carries. */
  lemma AssignedOk(s: State, c: nat, p: Partition)
    requires Inv(s) && c in s.clients && p !in s.clients[c].owned
    ensures var v := s.clients[c];
            var s1 := s.(nextToken := s.nextToken + 1);
            ClientOk(s1, v.(owned := Assign(v.owned, p, s.nextToken), position := v.position[p := CommittedOf(s, p)]))
  {
    hide AllCovered, CacheConfirmed, Exclusive;
    var v := s.clients[c];
    assert ClientOk(s, v);
    var s1 := s.(nextToken := s.nextToken + 1);
    if v.work.Some? && v.work.value.settled {
      CoveredKept(s, s1, v.work.value.partition, v.work.value.offset);
    }
  }

  lemma ConfirmKept(s: State, c: nat, s': State)
    requires Inv(s) && Moves(s, Confirmed(c), s')
    ensures Inv(s')
  {
    MovesExtends(s, Confirmed(c), s');
    var v, w, id := s.clients[c], s.clients[c].work.value, Current(s, c).value.dedupId;
    assert ClientOk(s, v);
    NowConfirmed(s, s', w.partition, w.offset);
    hide Covered, Aligned, ConfirmedId, Extends, ClientOk, LogOf;
    AllCoveredKept(s, s');
    hide AllCovered;
    forall r, k | r in s'.dedup && k in s'.dedup[r] ensures ConfirmedId(s', k) {
      if r in s.dedup && k in s.dedup[r] {
        ConfirmedIdKept(s, s', k);
      }
    }
    forall d | d in s'.clients ensures ClientOk(s', s'.clients[d]) {
      ClientKept(s, s', s.clients[d]);
      if d == c {
        SkippedOk(s', v);
      }
    }
  }

  lemma NowConfirmed(s: State, s': State, p: Partition, o: nat)
    requires Extends(s, s') && o < |LogOf(s, p)| && (p, o) in s'.confirmed
    ensures Covered(s', p, o) && ConfirmedId(s', LogOf(s, p)[o].dedupId)
  {
    ExtendedLog(s, s', p, o);
  }

  /** The commit moves the offset by exactly one, past a covered record. */
  lemma CommitStep(s: State, c: nat)
    requires Inv(s) && Busy(s, c) && s.clients[c].work.value.settled
    requires MayCommit(s.clients[c].owned, s.clients[c].work.value.partition, s.clients[c].work.value.token)
    ensures var w := s.clients[c].work.value;
            CommittedOf(s, w.partition) == w.offset && Covered(s, w.partition, w.offset)
  {
    hide Covered, AllCovered, CacheConfirmed, Exclusive;
    assert ClientOk(s, s.clients[c]);
  }

  lemma CommittedKept(s: State, c: nat, s': State, v: Client)
    requires Inv(s) && Busy(s, c) && s.clients[c].work.value.settled
    requires MayCommit(s.clients[c].owned, s.clients[c].work.value.partition, s.clients[c].work.value.token)
    requires v == s.clients[c].(stopped := true) || v == s.clients[c].(work := None)
    requires var w := s.clients[c].work.value; s' == PutClient(s, c, v).(committed := s.committed[w.partition := w.offset + 1])
    ensures Inv(s')
  {
    CommitStep(s, c);
    var w := s.clients[c].work.value;
    assert Extends(s, s');
    hide Covered, ConfirmedId, Extends, LogOf, ClientOk;
    forall p, o: nat | o < CommittedOf(s', p) ensures Covered(s', p, o) {
      CoveredKept(s, s', p, o);
    }
    CacheKept(s, s');
    forall d | d in s'.clients ensures ClientOk(s', s'.clients[d]) {
      if d != c {
        assert w.partition !in s.clients[d].owned;
        ClientKept(s, s', s.clients[d]);
      } else {
        OwnCommit(s, c, s', v);
      }
    }
  }

  /** After its commit the client stands at the committed offset again. */
  lemma OwnCommit(s: State, c: nat, s': State, v: Client)
    requires Busy(s, c) && ClientOk(s, s.clients[c]) && Extends(s, s') && s'.nextToken == s.nextToken
    requires MayCommit(s.clients[c].owned, s.clients[c].work.value.partition, s.clients[c].work.value.token)
    requires v == s.clients[c].(stopped := true) || v == s.clients[c].(work := None)
    requires var w := s.clients[c].work.value;
             CommittedOf(s', w.partition) == w.offset + 1 && forall p :: p != w.partition ==> CommittedOf(s', p) == CommittedOf(s, p)
    ensures ClientOk(s', v)
  {
    hide Covered;
    var w := s.clients[c].work.value;
    ExtendedLog(s, s', w.partition, w.offset);
    if w.settled {
      CoveredKept(s, s', w.partition, w.offset);
    }
  }

  lemma CommitKept(s: State, act: Action, s': State)
    requires Inv(s) && Moves(s, act, s') && (act.Commit? || act.CommitFails?)
    ensures Inv(s')
  {
    hide Covered, Aligned, AllCovered, CacheConfirmed, Exclusive, ClientOk;
    var c := act.client;
    var v, w := s.clients[c], s.clients[c].work.value;
    if act.Commit? && MayCommit(v.owned, w.partition, w.token) {
      CommittedKept(s, c, s', v.(work := None));
    } else if act.CommitFails? && act.applied {
      CommittedKept(s, c, s', v.(stopped := true));
    } else {
      DroppedOk(s, v);
      ClientStep(s, c, s'.clients[c]);
    }
  }

  /** Giving up work that may not commit, or stopping, leaves the client in order. */
  lemma DroppedOk(s: State, v: Client)
    requires ClientOk(s, v)
    ensures ClientOk(s, v.(stopped := true))
    ensures v.work.Some? && !MayCommit(v.owned, v.work.value.partition, v.work.value.token) ==> ClientOk(s, v.(work := None))
  {
    hide Covered;
  }

  lemma MovesKept(s: State, act: Action, s': State)
    requires Inv(s) && Moves(s, act, s')
    ensures Inv(s')
  {
    hide Inv, Moves;
    match act
    case Join(_, _) => JoinKept(s, act, s');
    case GetAssigned(_, _) => JoinKept(s, act, s');
    case Confirmed(c) => ConfirmKept(s, c, s');
    case Commit(_) => CommitKept(s, act, s');
    case CommitFails(_, _) => CommitKept(s, act, s');
    case Sweep(r) => SweepKept(s, r, s');
    case Tick(_) => WorldKept(s, act, s');
    case Produce(_, _) => WorldKept(s, act, s');
    case ConfirmedUnseen(_) => WorldKept(s, act, s');
    case _ => LocalKept(s, act, s');
  }

  lemma {:induction false} RunInv(states: seq<State>, actions: seq<Action>, i: nat)
    requires IsRun(states, actions) && i < |states|
    ensures Inv(states[i])
  {
    hide Moves;
    if i > 0 {
      RunInv(states, actions, i - 1);
      hide Inv;
      MovesKept(states[i - 1], actions[i - 1], states[i]);
    }
  }

  // ---- results ----

  /**
   In every run, everything below a partition's committed offset has been confirmed by the
   engine: the record itself, or a record with the same deduplication id.
   */
  lemma CommittedIsConfirmed(states: seq<State>, actions: seq<Action>, i: nat, p: Partition, o: nat)
    requires IsRun(states, actions) && i < |states| && o < CommittedOf(states[i], p)
    ensures o < |LogOf(states[i], p)|
    ensures (p, o) in states[i].confirmed
            || (LogOf(states[i], p)[o].dedupId != "" && ConfirmedId(states[i], LogOf(states[i], p)[o].dedupId))
  {
    hide IsRun, ConfirmedId, CacheConfirmed, Exclusive, ClientOk;
    RunInv(states, actions, i);
    assert Covered(states[i], p, o);
  }

  /**
   In every run, a commit under the assignment of its record moves the committed offset from that
   record to the next, and one under a lost assignment moves nothing.
   */
  lemma CommitMovesOne(states: seq<State>, actions: seq<Action>, i: nat, c: nat)
    requires IsRun(states, actions) && i < |actions| && actions[i] == Commit(c)
    ensures c in states[i].clients && states[i].clients[c].work.Some?
    ensures var w := states[i].clients[c].work.value;
            if w.partition in states[i].clients[c].owned && states[i].clients[c].owned[w.partition] == w.token
            then CommittedOf(states[i], w.partition) == w.offset && CommittedOf(states[i + 1], w.partition) == w.offset + 1
            else states[i + 1].committed == states[i].committed
  {
    hide Inv;
    RunInv(states, actions, i);
    assert Moves(states[i], actions[i], states[i + 1]);
    var w := states[i].clients[c].work.value;
    if MayCommit(states[i].clients[c].owned, w.partition, w.token) {
      CommitStep(states[i], c);
    }
  }

  lemma StepMonotone(s: State, act: Action, s': State, p: Partition)
    requires Inv(s) && Moves(s, act, s')
    ensures CommittedOf(s, p) <= CommittedOf(s', p) <= CommittedOf(s, p) + 1
  {
    hide Covered, AllCovered, CacheConfirmed, Exclusive, Aligned, Unowned;
    if act.Commit? || act.CommitFails? {
      var w := s.clients[act.client].work.value;
      if MayCommit(s.clients[act.client].owned, w.partition, w.token) {
        CommitStep(s, act.client);
      }
    }
  }

  /** A committed offset never decreases, whatever is revoked, re-assigned or retried. */
  lemma {:induction false} CommittedNeverDecreases(states: seq<State>, actions: seq<Action>, i: nat, k: nat, p: Partition)
    requires IsRun(states, actions) && i <= k < |states|
    ensures CommittedOf(states[i], p) <= CommittedOf(states[k], p)
    decreases k - i
  {
    hide Moves;
    if i < k {
      CommittedNeverDecreases(states, actions, i, k - 1, p);
      RunInv(states, actions, k - 1);
      hide Inv;
      StepMonotone(states[k - 1], actions[k - 1], states[k], p);
    }
  }
}
