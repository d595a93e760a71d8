/**
 * server-b's own objects, run alone: the pending store over the Redis data it changes in place, the
 * publisher, the accept service, and the sweeps of the recovery scheduler. Any Redis command may
 * throw; cut is the number of an operation's commands that still work.
 */
module PendingStore {
  import opened Payloads
  import opened CouponDb
  import opened Redis
  import opened Recovery
  import opened Basics
  import C = ServerC

  // ---------------------------------------------------------------- what a fetch returns

  /** The entries of these members that can be read, in their order. */
  function Fetched(hashes: map<Key, Hash>, members: seq<Key>): seq<PendingIssue> {
    if members == [] then []
    else
      var k := members[|members| - 1];
      var earlier := Fetched(hashes, members[..|members| - 1]);
      if k in hashes && ReadPending(k, hashes[k]).Some? then earlier + [ReadPending(k, hashes[k]).value] else earlier
  }

  /** Members whose hash is gone. */
  function Orphans(hashes: map<Key, Hash>, members: seq<Key>): set<Key> {
    set k | k in members && k !in hashes
  }

  datatype SaveOutcome = FirstWrite | AlreadyThere | SaveThrew

  datatype Fetch = Read(entries: seq<PendingIssue>) | FetchThrew

  class RedisPendingIssueStore {
    var data: Redis

    constructor ()
      ensures data == Redis(map[], map[])
    {
      data := Redis(map[], map[]);
    }

    /**
     * The first caller stores a complete entry and enlists it; nobody else changes anything. Cut
     * off after the first command it has taken the key for good, and after the second filled it.
     */
    method SavePendingIfAbsent(k: Key, requestId: string, eventId: int, createdAt: int, cut: nat)
        returns (outcome: SaveOutcome)
      modifies this
      ensures outcome.AlreadyThere? <==> cut >= 1 && HashOf(old(data), k).userId.Some?
      ensures outcome.FirstWrite? <==> cut >= ALL_COMMANDS && HashOf(old(data), k).userId.None?
      ensures data == SavedUpTo(old(data), k, requestId, eventId, createdAt, cut)
      ensures outcome.AlreadyThere? ==> data == old(data)
      ensures outcome.SaveThrew? && cut >= 1 ==> HashOf(data, k).userId.Some? && data.zset == old(data).zset
      ensures outcome.SaveThrew? && cut == 1 ==>
                data.hashes == old(data).hashes[k := HashOf(old(data), k).(userId := Some(k.userId))]
      ensures outcome.SaveThrew? && cut == 2 ==>
                data.hashes == old(data).hashes[k := Hash(Some(k.userId), Some(requestId), Some(eventId),
                                                          Some(k.couponTypeId), Some(PENDING), Some(createdAt),
                                                          Some(1), Some(createdAt), HashOf(old(data), k).code)]
      ensures outcome.FirstWrite? ==>
                data == Redis(old(data).hashes[k := Hash(Some(k.userId), Some(requestId), Some(eventId),
                                                         Some(k.couponTypeId), Some(PENDING), Some(createdAt),
                                                         Some(1), Some(createdAt), HashOf(old(data), k).code)],
                              old(data).zset[k := createdAt])
    {
      if cut == 0 { return SaveThrew; }
      var first := Claims(data, k);
      data := HsetnxUserId(data, k);
      if !first { return AlreadyThere; }
      if cut == 1 { return SaveThrew; }
      data := HsetPending(data, k, requestId, eventId, createdAt);
      if cut == 2 { return SaveThrew; }
      data := Zadd(data, k, createdAt);
      return FirstWrite;
    }

    /**
     * Counts the attempt and pushes the entry behind everything scored earlier; its outcome stays.
     * Cut off after the first command the attempt is counted and the entry stays where it was.
     */
    method RecordRepublish(k: Key, publishedAt: int, cut: nat) returns (done: bool, attempts: int)
      modifies this
      ensures done <==> cut >= ALL_COMMANDS
      ensures data == RepublishedUpTo(old(data), k, publishedAt, cut)
      ensures attempts == (if HashOf(old(data), k).attempts.Some? then HashOf(old(data), k).attempts.value else 0) + 1
      ensures done ==>
                data == Redis(old(data).hashes[k := HashOf(old(data), k).(attempts := Some(attempts),
                                                                          lastPublishedAt := Some(publishedAt))],
                              old(data).zset[k := publishedAt])
      ensures 1 <= cut < ALL_COMMANDS ==>
                HashOf(data, k).attempts == Some(attempts) && data.zset == old(data).zset
    {
      var h := HashOf(data, k);
      attempts := if h.attempts.Some? then h.attempts.value + 1 else 1;
      if cut == 0 { return false, attempts; }
      data := HincrAttempts(data, k);
      if cut == 1 { return false, attempts; }
      data := HsetLastPublished(data, k, publishedAt);
      if cut == 2 { return false, attempts; }
      data := Zadd(data, k, publishedAt);
      return true, attempts;
    }

    /** Writes the outcome, keeps a code it is not given, and takes the entry off the set. */
    method MarkResult(k: Key, status: PendingStatus, code: Option<string>, cut: nat) returns (done: bool)
      modifies this
      ensures done <==> cut >= ALL_COMMANDS
      ensures data == MarkedUpTo(old(data), k, status, code, cut)
      ensures done ==>
                data == Redis(old(data).hashes[k := HashOf(old(data), k).(
                                status := Some(status), code := if code.Some? then code else HashOf(old(data), k).code)],
                              old(data).zset - {k})
      ensures !done ==> data.zset == old(data).zset
    {
      if cut == 0 { return false; }
      data := HsetStatus(data, k, status);
      if cut == 1 { return false; }
      if code.Some? { data := HsetCode(data, k, code.value); }
      if cut == 2 { return false; }
      data := Zrem(data, k);
      return true;
    }

    /**
     * members is what ZRANGEBYSCORE answered; orphans leave the set, unreadable entries are passed
     * over. readable is the number of members whose commands work; one that throws ends the fetch.
     */
    method FindPendingOlderThan(members: seq<Key>, readable: nat) returns (result: Fetch)
      modifies this
      ensures result.FetchThrew? <==> readable < |members|
      ensures result.Read? ==> result.entries == Fetched(old(data).hashes, members)
      ensures data.hashes == old(data).hashes
      ensures data.zset == old(data).zset -
                           Orphans(old(data).hashes, if readable < |members| then members[..readable] else members)
    {
      var entries := [];
      var i := 0;
      while i < |members|
        invariant i <= |members| && i <= readable
        invariant entries == Fetched(old(data).hashes, members[..i])
        invariant data.hashes == old(data).hashes
        invariant data.zset == old(data).zset - Orphans(old(data).hashes, members[..i])
      {
        if i >= readable { return FetchThrew; }
        var k := members[i];
        assert members[..i + 1][..i] == members[..i];
        if k !in data.hashes {
          data := Zrem(data, k);
        } else {
          var p := ReadPending(k, data.hashes[k]);
          if p.Some? { entries := entries + [p.value]; }
        }
        i := i + 1;
      }
      assert members[..i] == members;
      return Read(entries);
    }
  }

  /** topic is the request topic as this producer's sends leave it. */
  class IssueRequestPublisher {
    var topic: seq<RequestPayload>

    ghost predicate Valid()
      reads this
    {
      forall m | m in topic :: AssertIssueRequestPayload(m) == Check.Accepted
    }

    constructor ()
      ensures Valid() && topic == []
    {
      topic := [];
    }

    /** The gate: an invalid payload is never sent. A send that failed may have been appended all the same. */
    method Publish(m: RequestPayload, outcome: C.SendOutcome) returns (ok: bool)
      requires Valid()
      modifies this
      ensures Valid()
      ensures ok <==> ValidRequest(m) && outcome.Sent?
      ensures topic == old(topic) + if ValidRequest(m) && !outcome.ErrorNotSent? then [m] else []
    {
      if AssertIssueRequestPayload(m) != Check.Accepted { return false; }
      if !outcome.ErrorNotSent? { topic := topic + [m]; }
      return outcome.Sent?;
    }
  }

  /** AcceptThrew: a Redis command threw, and the caller gets no answer of the service. */
  datatype Acceptance = Accepted(requestId: string) | Duplicate(requestId: string) | AcceptThrew

  class CouponIssueAcceptService {
    const store: RedisPendingIssueStore
    const publisher: IssueRequestPublisher

    constructor (store: RedisPendingIssueStore, publisher: IssueRequestPublisher)
      ensures this.store == store && this.publisher == publisher
    {
      this.store, this.publisher := store, publisher;
    }

    /**
     * Accepted means stored and enlisted, whatever became of the send; a duplicate changes nothing;
     * one that throws sends nothing. What was stored rebuilds the very message that was sent.
     */
    method Accept(k: Key, eventId: int, requestId: string, now: int, cut: nat, outcome: C.SendOutcome)
        returns (r: Acceptance)
      requires publisher.Valid()
      modifies store, publisher
      ensures publisher.Valid() && (!r.AcceptThrew? ==> r.requestId == requestId)
      ensures r.Duplicate? <==> cut >= 1 && HashOf(old(store.data), k).userId.Some?
      ensures r.Accepted? <==> cut >= ALL_COMMANDS && HashOf(old(store.data), k).userId.None?
      ensures store.data == SavedUpTo(old(store.data), k, requestId, eventId, now, cut)
      ensures !r.Accepted? ==> publisher.topic == old(publisher.topic)
      ensures r.Duplicate? ==> store.data == old(store.data)
      ensures r.Accepted? ==>
                && k in store.data.zset && Filled(store.data, k)
                && var p := ReadPending(k, store.data.hashes[k]);
                   && p.Some? && p.value.status == PENDING && p.value.attempts == 1
                   && publisher.topic == old(publisher.topic) +
                        if ValidRequest(RebuiltPayload(p.value)) && !outcome.ErrorNotSent?
                        then [RebuiltPayload(p.value)] else []
    {
      var write := store.SavePendingIfAbsent(k, requestId, eventId, now, cut);
      match write
      case SaveThrew => return AcceptThrew;
      case AlreadyThere => return Duplicate(requestId);
      case FirstWrite =>
        var _ := publisher.Publish(FirstPayload(k, requestId, eventId, now), outcome);
        return Acceptance.Accepted(requestId);
    }
  }

  // ---------------------------------------------------------------- one sweep

  /** What server-c answered when asked for the row. */
  datatype Lookup = LookupThrows | Knows(row: Coupon) | KnowsNothing

  /** What meets the scheduler when it comes to an entry: the answer, the clock, how many commands work, the send. */
  datatype Turn = Turn(lookup: Lookup, at: int, cut: nat, send: C.SendOutcome)

  /** Nothing threw before the end of the store's operation. */
  predicate Completes(t: Turn) {
    !t.lookup.LookupThrows? && t.cut >= ALL_COMMANDS
  }

  function AfterTurn(r: Redis, max: int, p: PendingIssue, t: Turn): Redis {
    match t.lookup
    case LookupThrows => r
    case Knows(row) => Handled(r, max, p, Some(row), t.at, t.cut)
    case KnowsNothing => Handled(r, max, p, None, t.at, t.cut)
  }

  function AfterTurns(r: Redis, max: int, ps: seq<PendingIssue>, turn: Key -> Turn): Redis {
    if ps == [] then r
    else
      var p := ps[|ps| - 1];
      AfterTurn(AfterTurns(r, max, ps[..|ps| - 1], turn), max, p, turn(p.key))
  }

  /** One sweep over these members: orphans leave the set, every entry that can be read gets its turn. */
  function Swept(r: Redis, max: int, members: seq<Key>, turn: Key -> Turn): Redis {
    AfterTurns(r.(zset := r.zset - Orphans(r.hashes, members)), max, Fetched(r.hashes, members), turn)
  }

  /** The message this turn puts on the topic: the stored application, unchanged, once the retry is recorded. */
  function SentBy(max: int, p: PendingIssue, t: Turn): seq<RequestPayload> {
    if && t.lookup.KnowsNothing? && p.attempts < max && Completes(t)
       && ValidRequest(RebuiltPayload(p)) && !t.send.ErrorNotSent?
    then [RebuiltPayload(p)] else []
  }

  function Resent(max: int, ps: seq<PendingIssue>, turn: Key -> Turn): seq<RequestPayload> {
    if ps == [] then []
    else
      var p := ps[|ps| - 1];
      Resent(max, ps[..|ps| - 1], turn) + SentBy(max, p, turn(p.key))
  }

  /** This turn sends: nothing known, an attempt left, every command worked, a valid message, no outright failure. */
  predicate TurnSends(max: int, p: PendingIssue, t: Turn) {
    && t.lookup.KnowsNothing? && p.attempts < max && t.cut >= 3
    && ValidRequest(RebuiltPayload(p)) && !t.send.ErrorNotSent?
  }

  /** sent are the stored applications of the entries at these positions, which are those whose turn sends. */
  ghost predicate SendsThese(max: int, ps: seq<PendingIssue>, turn: Key -> Turn, sent: seq<RequestPayload>, at: seq<nat>) {
    && Picks(at, |ps|) && |sent| == |at|
    && (forall j | 0 <= j < |at| ::
          var p := ps[at[j]];
          sent[j] == RequestPayload(Some(p.requestId), p.key.userId, p.eventId, p.key.couponTypeId, Some(p.createdAt)))
    && forall i | 0 <= i < |ps| :: i in at <==> TurnSends(max, ps[i], turn(ps[i].key))
  }

  /**
   * A sweep sends again exactly the fetched entries that server-c knows nothing of, that have an
   * attempt left, whose commands all worked, whose message passes its check and whose send did not
   * fail outright: one message each, the stored application, in the order of the fetch.
   */
  lemma {:induction false} WhatASweepSends(max: int, ps: seq<PendingIssue>, turn: Key -> Turn) returns (at: seq<nat>)
    ensures SendsThese(max, ps, turn, Resent(max, ps, turn), at)
  {
    if ps == [] {
      at := [];
    } else {
      var n := |ps| - 1;
      var earlier := WhatASweepSends(max, ps[..n], turn);
      WhatATurnSends(max, ps[n], turn(ps[n].key));
      LastTurnSends(max, ps, turn);
      hide Resent, SentBy, TurnSends, SendsThese;
      var p := ps[n];
      var m := RequestPayload(Some(p.requestId), p.key.userId, p.eventId, p.key.couponTypeId, Some(p.createdAt));
      if TurnSends(max, p, turn(p.key)) {
        SendsOneMore(max, ps, turn, Resent(max, ps[..n], turn), earlier, m);
        at := earlier + [n];
      } else {
        SendsNoMore(max, ps, turn, Resent(max, ps[..n], turn), earlier);
        at := earlier;
      }
    }
  }

  lemma SendsOneMore(max: int, ps: seq<PendingIssue>, turn: Key -> Turn, sent: seq<RequestPayload>, at: seq<nat>,
                     m: RequestPayload)
    requires ps != [] && SendsThese(max, ps[..|ps| - 1], turn, sent, at)
    requires var p := ps[|ps| - 1];
             && TurnSends(max, p, turn(p.key))
             && m == RequestPayload(Some(p.requestId), p.key.userId, p.eventId, p.key.couponTypeId, Some(p.createdAt))
    ensures SendsThese(max, ps, turn, sent + [m], at + [|ps| - 1])
  {
    hide TurnSends;
    var n := |ps| - 1;
    OnePickMore(at, n);
    assert forall i | 0 <= i < n :: ps[..n][i] == ps[i];
  }

  lemma SendsNoMore(max: int, ps: seq<PendingIssue>, turn: Key -> Turn, sent: seq<RequestPayload>, at: seq<nat>)
    requires ps != [] && SendsThese(max, ps[..|ps| - 1], turn, sent, at)
    requires !TurnSends(max, ps[|ps| - 1], turn(ps[|ps| - 1].key))
    ensures SendsThese(max, ps, turn, sent + [], at)
  {
    hide TurnSends;
    var n := |ps| - 1;
    OnePickMore(at, n);
    assert forall i | 0 <= i < n :: ps[..n][i] == ps[i];
  }

  lemma NoTurnYet(r: Redis, max: int, ps: seq<PendingIssue>, turn: Key -> Turn)
    ensures AfterTurns(r, max, ps[..0], turn) == r && Resent(max, ps[..0], turn) == []
  {}

  lemma OneTurnMore(r: Redis, max: int, ps: seq<PendingIssue>, i: nat, turn: Key -> Turn)
    requires i < |ps|
    ensures AfterTurns(r, max, ps[..i + 1], turn) ==
            AfterTurn(AfterTurns(r, max, ps[..i], turn), max, ps[i], turn(ps[i].key))
    ensures Resent(max, ps[..i + 1], turn) == Resent(max, ps[..i], turn) + SentBy(max, ps[i], turn(ps[i].key))
  {
    assert ps[..i + 1][..i] == ps[..i];
    hide AfterTurn, SentBy;
  }

  lemma LastTurnSends(max: int, ps: seq<PendingIssue>, turn: Key -> Turn)
    requires ps != []
    ensures var n := |ps| - 1;
            Resent(max, ps, turn) == Resent(max, ps[..n], turn) + SentBy(max, ps[n], turn(ps[n].key))
  {}

  lemma WhatATurnSends(max: int, p: PendingIssue, t: Turn)
    ensures SentBy(max, p, t) ==
            if TurnSends(max, p, t)
            then [RequestPayload(Some(p.requestId), p.key.userId, p.eventId, p.key.couponTypeId, Some(p.createdAt))]
            else []
  {}

  /** No retry that is due goes unsent, and nothing else is sent. */
  lemma DueRetriesAreSent(max: int, ps: seq<PendingIssue>, turn: Key -> Turn)
    ensures forall i | && 0 <= i < |ps| && turn(ps[i].key).lookup.KnowsNothing? && ps[i].attempts < max
                       && turn(ps[i].key).cut >= 3 && ValidRequest(RebuiltPayload(ps[i]))
                       && !turn(ps[i].key).send.ErrorNotSent? ::
              RebuiltPayload(ps[i]) in Resent(max, ps, turn)
    ensures forall m | m in Resent(max, ps, turn) ::
              exists i :: && 0 <= i < |ps| && m == RebuiltPayload(ps[i]) && turn(ps[i].key).lookup.KnowsNothing?
                          && ps[i].attempts < max && turn(ps[i].key).cut >= 3
                          && ValidRequest(m) && !turn(ps[i].key).send.ErrorNotSent?
  {
    var at := WhatASweepSends(max, ps, turn);
    hide Resent, ValidRequest, Picks;
    var sent := Resent(max, ps, turn);
    forall i | 0 <= i < |ps| && TurnSends(max, ps[i], turn(ps[i].key)) ensures RebuiltPayload(ps[i]) in sent {
      assert i in at;
      var j :| 0 <= j < |at| && at[j] == i;
      assert sent[j] == RebuiltPayload(ps[i]);
    }
    forall m | m in sent
      ensures exists i :: 0 <= i < |ps| && m == RebuiltPayload(ps[i]) && TurnSends(max, ps[i], turn(ps[i].key))
    {
      var j :| 0 <= j < |sent| && sent[j] == m;
      PickIsBelow(at, |ps|, j);
      assert at[j] in at;
    }
  }

  lemma PickIsBelow(at: seq<nat>, n: nat, j: nat)
    requires Picks(at, n) && j < |at|
    ensures at[j] < n
  {}

  /** A fetch removes exactly the members without a hash. */
  lemma WhatAFetchRemoves(hashes: map<Key, Hash>, members: seq<Key>, k: Key)
    ensures k in Orphans(hashes, members) <==> k in members && k !in hashes
  {}

  /** The hash has what an entry needs. */
  predicate CanBeRead(hashes: map<Key, Hash>, k: Key) {
    && k in hashes && hashes[k].requestId.Some? && hashes[k].eventId.Some?
    && hashes[k].status.Some? && hashes[k].createdAt.Some?
  }

  function EntryOf(hashes: map<Key, Hash>, k: Key): PendingIssue
    requires CanBeRead(hashes, k)
  {
    var h := hashes[k];
    PendingIssue(k, h.requestId.value, h.eventId.value, h.status.value, h.createdAt.value,
                 if h.attempts.Some? then h.attempts.value else 1)
  }

  /** entries are those of the members at these positions, which are the ones that can be read. */
  ghost predicate ReadsThese(hashes: map<Key, Hash>, members: seq<Key>, entries: seq<PendingIssue>, at: seq<nat>) {
    && Picks(at, |members|) && |entries| == |at|
    && (forall j | 0 <= j < |at| ::
          CanBeRead(hashes, members[at[j]]) && entries[j] == EntryOf(hashes, members[at[j]]))
    && forall i | 0 <= i < |members| :: i in at <==> CanBeRead(hashes, members[i])
  }

  /** And returns exactly those whose hash has what an entry needs, with its values, in their order. */
  lemma {:induction false} WhatAFetchReads(hashes: map<Key, Hash>, members: seq<Key>) returns (at: seq<nat>)
    ensures ReadsThese(hashes, members, Fetched(hashes, members), at)
  {
    if members == [] {
      at := [];
    } else {
      var n := |members| - 1;
      var earlier := WhatAFetchReads(hashes, members[..n]);
      LastMemberRead(hashes, members);
      hide Fetched, ReadsThese, CanBeRead, EntryOf;
      OneMemberMore(hashes, members, Fetched(hashes, members[..n]), earlier);
      at := if CanBeRead(hashes, members[n]) then earlier + [n] else earlier;
    }
  }

  lemma OneMemberMore(hashes: map<Key, Hash>, members: seq<Key>, entries: seq<PendingIssue>, at: seq<nat>)
    requires members != [] && ReadsThese(hashes, members[..|members| - 1], entries, at)
    ensures var k := members[|members| - 1];
            if CanBeRead(hashes, k) then ReadsThese(hashes, members, entries + [EntryOf(hashes, k)], at + [|members| - 1])
            else ReadsThese(hashes, members, entries, at)
  {
    hide CanBeRead, EntryOf;
    var n := |members| - 1;
    OnePickMore(at, n);
    assert forall i | 0 <= i < n :: members[..n][i] == members[i];
  }

  lemma LastMemberRead(hashes: map<Key, Hash>, members: seq<Key>)
    requires members != []
    ensures var n := |members| - 1; var k := members[n]; var earlier := Fetched(hashes, members[..n]);
            Fetched(hashes, members) == if CanBeRead(hashes, k) then earlier + [EntryOf(hashes, k)] else earlier
  {}

  class PendingIssueScheduler {
    const store: RedisPendingIssueStore
    const publisher: IssueRequestPublisher
    const maxPublishAttempts: int
    var running: bool

    constructor (store: RedisPendingIssueStore, publisher: IssueRequestPublisher, max: int)
      ensures this.store == store && this.publisher == publisher && maxPublishAttempts == max && !running
    {
      this.store, this.publisher, maxPublishAttempts, running := store, publisher, max, false;
    }

    /**
     * A tick while a sweep is still running does nothing at all. Any other is one sweep, and a
     * fetch that throws ends it; either way the next tick can run.
     */
    method Run(members: seq<Key>, readable: nat, turn: Key -> Turn)
      requires publisher.Valid()
      modifies this, store, publisher
      ensures publisher.Valid()
      ensures old(running) ==> running && store.data == old(store.data) && publisher.topic == old(publisher.topic)
      ensures !old(running) ==> !running
      ensures !old(running) && readable < |members| ==>
                && publisher.topic == old(publisher.topic) && store.data.hashes == old(store.data).hashes
                && store.data.zset == old(store.data).zset - Orphans(old(store.data).hashes, members[..readable])
      ensures !old(running) && readable >= |members| ==>
                && store.data == Swept(old(store.data), maxPublishAttempts, members, turn)
                && publisher.topic == old(publisher.topic) +
                     Resent(maxPublishAttempts, Fetched(old(store.data).hashes, members), turn)
    {
      if running { return; }
      running := true;
      var _ := Sweep(members, readable, turn);
      running := false;
    }

    /** A turn that throws leaves what its commands did so far, and the loop goes on with the next entry. */
    method Sweep(members: seq<Key>, readable: nat, turn: Key -> Turn) returns (threw: bool)
      requires publisher.Valid()
      modifies store, publisher
      ensures publisher.Valid()
      ensures threw <==> readable < |members|
      ensures threw ==>
                && publisher.topic == old(publisher.topic) && store.data.hashes == old(store.data).hashes
                && store.data.zset == old(store.data).zset - Orphans(old(store.data).hashes, members[..readable])
      ensures !threw ==>
                && store.data == Swept(old(store.data), maxPublishAttempts, members, turn)
                && publisher.topic == old(publisher.topic) +
                     Resent(maxPublishAttempts, Fetched(old(store.data).hashes, members), turn)
    {
      hide AfterTurn, AfterTurns, SentBy, Resent, Fetched, Orphans;
      var fetch := store.FindPendingOlderThan(members, readable);
      if fetch.FetchThrew? { return true; }
      var stale := fetch.entries;
      ghost var start := store.data;
      var i := 0;
      NoTurnYet(start, maxPublishAttempts, stale, turn);
      while i < |stale|
        invariant i <= |stale| && publisher.Valid()
        invariant store.data == AfterTurns(start, maxPublishAttempts, stale[..i], turn)
        invariant publisher.topic == old(publisher.topic) + Resent(maxPublishAttempts, stale[..i], turn)
      {
        OneTurnMore(start, maxPublishAttempts, stale, i, turn);
        TakeTurn(stale[i], turn(stale[i].key));
        i := i + 1;
      }
      assert stale[..i] == stale;
      return false;
    }

    /** The three branches for one entry. */
    method TakeTurn(p: PendingIssue, t: Turn)
      requires publisher.Valid()
      modifies store, publisher
      ensures publisher.Valid()
      ensures store.data == AfterTurn(old(store.data), maxPublishAttempts, p, t)
      ensures publisher.topic == old(publisher.topic) + SentBy(maxPublishAttempts, p, t)
    {
      match t.lookup {
        case LookupThrows =>
        case Knows(row) =>
          var _ := store.MarkResult(p.key, MapRowStatus(row.status), Some(row.code), t.cut);
        case KnowsNothing =>
          if p.attempts < maxPublishAttempts {
            Republish(p, t.at, t.cut, t.send);
          } else {
            var _ := store.MarkResult(p.key, FAILED, None, t.cut);
          }
      }
    }

    /** The attempt is counted before the send, so it counts even when the send, or a later command, fails. */
    method Republish(p: PendingIssue, now: int, cut: nat, outcome: C.SendOutcome)
      requires publisher.Valid()
      modifies store, publisher
      ensures publisher.Valid()
      ensures store.data == RepublishedUpTo(old(store.data), p.key, now, cut)
      ensures publisher.topic == old(publisher.topic) +
                if cut >= ALL_COMMANDS && ValidRequest(RebuiltPayload(p)) && !outcome.ErrorNotSent?
                then [RebuiltPayload(p)] else []
    {
      var done, _ := store.RecordRepublish(p.key, now, cut);
      if !done { return; }
      var _ := publisher.Publish(RebuiltPayload(p), outcome);
    }
  }
}
