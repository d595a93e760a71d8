/** Every step of the whole system keeps every invariant. */
module SystemProofs {
  import opened Payloads
  import opened CouponDb
  import opened Redis
  import opened System
  import C = ServerC
  import CP = ServerCProofs
  import CT = ServerCTheorems

  // ---------------------------------------------------------------- changes to one enlisted key

  /** A change that leaves an application what it is. */
  ghost predicate Keeps(h: Hash, h': Hash) {
    && h'.userId == h.userId && h'.couponTypeId == h.couponTypeId && h'.requestId == h.requestId
    && h'.eventId == h.eventId && h'.createdAt == h.createdAt
    && h'.status.Some? && h'.attempts.Some? && h'.lastPublishedAt.Some?
    && (Terminal(h) ==> Terminal(h'))
  }

  /** One command on one enlisted key; the key leaves the set only with its outcome written. */
  ghost predicate Touches(r: Redis, r': Redis, k: Key) {
    && k in r.hashes && k in r'.hashes && Keeps(r.hashes[k], r'.hashes[k])
    && r'.hashes == r.hashes[k := r'.hashes[k]]
    && (forall j | j != k :: j in r'.zset <==> j in r.zset)
    && (k in r.zset && k !in r'.zset ==> Terminal(r'.hashes[k]))
  }

  lemma TouchKeepsEnlisted(r: Redis, r': Redis, enlisted: set<Key>, k: Key)
    requires EnlistedOk(r, enlisted) && Touches(r, r', k) && k in enlisted
    ensures EnlistedOk(r', enlisted)
  {
    forall j | j in enlisted ensures Filled(r', j) && Tracked(r', j) {
      assert Filled(r, j) && Tracked(r, j);
    }
  }

  lemma TouchKeepsAccepts(r: Redis, r': Redis, enlisted: set<Key>, accepts: map<nat, Accept>, k: Key)
    requires AcceptsOk(r, enlisted, accepts) && Touches(r, r', k) && k in enlisted
    ensures AcceptsOk(r', enlisted, accepts)
  {
    forall i | i in accepts ensures AcceptOk(r', enlisted, accepts[i]) {
      assert AcceptOk(r, enlisted, accepts[i]);
    }
  }

  lemma TouchKeepsMessages(r: Redis, r': Redis, enlisted: set<Key>, requests: seq<RequestPayload>,
                           sending: set<RequestPayload>, k: Key)
    requires MessagesOk(r, enlisted, requests, sending) && Touches(r, r', k)
    ensures MessagesOk(r', enlisted, requests, sending)
  {
    forall m | m in requests || m in sending ensures MessageOk(r', enlisted, m) {
      assert MessageOk(r, enlisted, m);
    }
  }

  lemma TouchKeepsMarks(cs: seq<Coupon>, r: Redis, r': Redis, enlisted: set<Key>, marks: map<nat, Mark>, k: Key)
    requires MarksOk(cs, r, enlisted, marks) && Touches(r, r', k)
    ensures MarksOk(cs, r', enlisted, marks)
  {
    forall i | i in marks ensures MarkOk(r', enlisted, marks[i]) {
      assert MarkOk(r, enlisted, marks[i]);
    }
  }

  lemma TouchKeepsQueue(r: Redis, r': Redis, enlisted: set<Key>, queue: seq<PendingIssue>, k: Key)
    requires QueueOk(r, enlisted, queue) && Touches(r, r', k)
    requires r'.hashes[k].attempts == r.hashes[k].attempts || NotQueued(queue, k)
    ensures QueueOk(r', enlisted, queue)
  {
    forall i | 0 <= i < |queue| ensures ItemOk(r', enlisted, queue[i]) {
      assert ItemOk(r, enlisted, queue[i]);
    }
  }

  /** A command of somebody else that does not count attempts leaves the scheduler's facts alone. */
  lemma TouchKeepsSched(cs: seq<Coupon>, max: int, r: Redis, r': Redis, enlisted: set<Key>, sched: Scheduler, k: Key)
    requires SchedOk(cs, max, r, enlisted, sched) && Touches(r, r', k)
    requires r'.hashes[k].attempts == r.hashes[k].attempts
    ensures SchedOk(cs, max, r', enlisted, sched)
  {
    match sched
    case Resting =>
    case Fetching(todo, got) => TouchKeepsQueue(r, r', enlisted, got, k);
    case Working(queue) => TouchKeepsQueue(r, r', enlisted, queue, k);
    case Marking(m, _, queue) => TouchKeepsQueue(r, r', enlisted, queue, k);
    case Republishing(p, _, _, queue) => TouchKeepsQueue(r, r', enlisted, queue, k);
  }

  lemma TouchKeepsHashes(cs: seq<Coupon>, max: int, givenUp: set<Key>, givenUp': set<Key>, r: Redis, r': Redis, k: Key)
    requires HashesOk(cs, max, givenUp, r) && Touches(r, r', k) && givenUp <= givenUp'
    requires StatusOk(cs, max, givenUp', k, r'.hashes[k])
    requires 1 <= r'.hashes[k].attempts.value <= max
    ensures HashesOk(cs, max, givenUp', r')
  {}

  // ---------------------------------------------------------------- changes to a key not yet enlisted

  /** Nothing but the named key, which is not enlisted, changed. */
  ghost predicate Elsewhere(r: Redis, r': Redis, enlisted: set<Key>, k: Key) {
    && k !in enlisted && k in r'.hashes
    && r'.hashes == r.hashes[k := r'.hashes[k]]
    && (forall j | j != k :: j in r'.zset <==> j in r.zset)
  }

  lemma ElsewhereKeepsMessages(r: Redis, r': Redis, e: set<Key>, e': set<Key>, k: Key,
                               requests: seq<RequestPayload>, sending: set<RequestPayload>)
    requires MessagesOk(r, e, requests, sending) && Elsewhere(r, r', e, k) && e <= e'
    ensures MessagesOk(r', e', requests, sending)
  {
    forall m | m in requests || m in sending ensures MessageOk(r', e', m) {
      assert MessageOk(r, e, m);
    }
  }

  lemma ElsewhereKeepsMarks(cs: seq<Coupon>, r: Redis, r': Redis, e: set<Key>, e': set<Key>, k: Key, marks: map<nat, Mark>)
    requires MarksOk(cs, r, e, marks) && Elsewhere(r, r', e, k) && e <= e'
    ensures MarksOk(cs, r', e', marks)
  {
    forall i | i in marks ensures MarkOk(r', e', marks[i]) {
      assert MarkOk(r, e, marks[i]);
    }
  }

  lemma ElsewhereKeepsQueue(r: Redis, r': Redis, e: set<Key>, e': set<Key>, k: Key, queue: seq<PendingIssue>)
    requires QueueOk(r, e, queue) && Elsewhere(r, r', e, k) && e <= e'
    ensures QueueOk(r', e', queue)
  {
    forall i | 0 <= i < |queue| ensures ItemOk(r', e', queue[i]) {
      assert ItemOk(r, e, queue[i]);
    }
  }

  lemma ElsewhereKeepsSched(cs: seq<Coupon>, max: int, r: Redis, r': Redis, e: set<Key>, e': set<Key>, k: Key,
                            sched: Scheduler)
    requires SchedOk(cs, max, r, e, sched) && Elsewhere(r, r', e, k) && e <= e'
    ensures SchedOk(cs, max, r', e', sched)
  {
    match sched
    case Resting =>
    case Fetching(todo, got) => ElsewhereKeepsQueue(r, r', e, e', k, got);
    case Working(queue) => ElsewhereKeepsQueue(r, r', e, e', k, queue);
    case Marking(m, _, queue) => ElsewhereKeepsQueue(r, r', e, e', k, queue);
    case Republishing(p, _, _, queue) => ElsewhereKeepsQueue(r, r', e, e', k, queue);
  }

  lemma ElsewhereKeepsAccepts(r: Redis, r': Redis, e: set<Key>, e': set<Key>, k: Key, accepts: map<nat, Accept>,
                              id: nat, a: Accept)
    requires AcceptsOk(r, e, accepts) && Elsewhere(r, r', e, k) && e <= e' <= e + {k}
    requires a.key == k && AcceptOk(r', e', a)
    requires forall i | i in accepts && i != id :: accepts[i].key != k
    ensures AcceptsOk(r', e', accepts[id := a])
  {
    forall i | i in accepts && i != id ensures AcceptOk(r', e', accepts[i]) {
      assert AcceptOk(r, e, accepts[i]);
    }
  }

  /** The three commands of savePendingIfAbsent. */
  lemma ClaimKeepsInv(s: State, id: nat, step: AcceptStep)
    requires Inv(s) && CanAccept(s, id, step) && step.Claim?
    ensures Inv(AcceptNext(s, id, step))
  {
    var k := step.key;
    if Claims(s.redis, k) {
      var s' := AcceptNext(s, id, step);
      assert k !in s.redis.hashes;
      assert k !in s.enlisted;
      assert EnlistedOk(s'.redis, s.enlisted) by {
        forall j | j in s.enlisted ensures Filled(s'.redis, j) && Tracked(s'.redis, j) {
          assert Filled(s.redis, j) && Tracked(s.redis, j);
        }
      }
      forall i | i in s.accepts ensures s.accepts[i].key != k { assert AcceptOk(s.redis, s.enlisted, s.accepts[i]); }
      ElsewhereKeepsAll(s, s', k, id, s'.accepts[id]);
    }
  }

  lemma ElsewhereKeepsAll(s: State, s': State, k: Key, id: nat, a: Accept)
    requires Inv(s) && Elsewhere(s.redis, s'.redis, s.enlisted, k)
    requires s'.enlisted == s.enlisted || s'.enlisted == s.enlisted + {k}
    requires a.key == k && AcceptOk(s'.redis, s'.enlisted, a)
    requires forall i | i in s.accepts && i != id :: s.accepts[i].key != k
    requires s' == s.(redis := s'.redis, enlisted := s'.enlisted, accepts := s.accepts[id := a])
    requires EnlistedOk(s'.redis, s'.enlisted)
    requires !Terminal(s'.redis.hashes[k]) && s'.redis.hashes[k].code == HashOf(s.redis, k).code
    requires s'.redis.hashes[k].userId == Some(k.userId)
    requires s'.redis.hashes[k].attempts.Some? ==> 1 <= s'.redis.hashes[k].attempts.value <= s.max
    ensures Inv(s')
  {
    ElsewhereKeepsAccepts(s.redis, s'.redis, s.enlisted, s'.enlisted, k, s.accepts, id, a);
    ElsewhereKeepsMessages(s.redis, s'.redis, s.enlisted, s'.enlisted, k, s.requests, s.sending);
    ElsewhereKeepsMarks(s.c.db.coupons, s.redis, s'.redis, s.enlisted, s'.enlisted, k, s.marks);
    ElsewhereKeepsSched(s.c.db.coupons, s.max, s.redis, s'.redis, s.enlisted, s'.enlisted, k, s.sched);
    assert HashesOk(s.c.db.coupons, s.max, s.givenUp, s'.redis);
  }

  lemma FillKeepsInv(s: State, id: nat)
    requires Inv(s) && CanAccept(s, id, Fill)
    ensures Inv(AcceptNext(s, id, Fill))
  {
    var a := s.accepts[id];
    var s' := AcceptNext(s, id, Fill);
    assert AcceptOk(s.redis, s.enlisted, a);
    assert EnlistedOk(s'.redis, s.enlisted) by {
      forall j | j in s.enlisted ensures Filled(s'.redis, j) && Tracked(s'.redis, j) {
        assert Filled(s.redis, j) && Tracked(s.redis, j);
      }
    }
    ElsewhereKeepsAll(s, s', a.key, id, s'.accepts[id]);
  }

  lemma EnlistKeepsInv(s: State, id: nat)
    requires Inv(s) && CanAccept(s, id, Enlist)
    ensures Inv(AcceptNext(s, id, Enlist))
  {
    var a := s.accepts[id];
    var s' := AcceptNext(s, id, Enlist);
    assert AcceptOk(s.redis, s.enlisted, a);
    assert s'.redis.hashes == s.redis.hashes[a.key := s'.redis.hashes[a.key]];
    assert EnlistedOk(s'.redis, s'.enlisted) by {
      forall j | j in s.enlisted ensures Filled(s'.redis, j) && Tracked(s'.redis, j) {
        assert Filled(s.redis, j) && Tracked(s.redis, j);
      }
    }
    ElsewhereKeepsAll(s, s', a.key, id, s'.accepts[id]);
  }

  lemma MessagesAdd(r: Redis, e: set<Key>, requests: seq<RequestPayload>, sending: set<RequestPayload>, m: RequestPayload)
    requires MessagesOk(r, e, requests, sending) && MessageOk(r, e, m)
    ensures MessagesOk(r, e, requests + [m], sending) && MessagesOk(r, e, requests, sending + {m})
  {}

  lemma OriginGrows(c: C.State, requests: seq<RequestPayload>, m: RequestPayload)
    requires OriginOk(c, requests)
    ensures OriginOk(c, requests + [m])
  {
    assert forall k | k in Asked(requests) :: k in Asked(requests + [m]) by {
      forall k | k in Asked(requests) ensures k in Asked(requests + [m]) {
        var n :| n in requests && RequestKey(n) == k;
        assert n in requests + [m];
      }
    }
  }

  lemma PublishKeepsInv(s: State, id: nat, ok: bool)
    requires Inv(s) && CanAccept(s, id, Publish(ok))
    ensures Inv(AcceptNext(s, id, Publish(ok)))
  {
    var a := s.accepts[id];
    var m := AcceptPayload(a);
    assert AcceptOk(s.redis, s.enlisted, a);
    assert RequestKey(m) == a.key;
    if ValidRequest(m) { MessagesAdd(s.redis, s.enlisted, s.requests, s.sending, m); }
    OriginGrows(s.c, s.requests, m);
  }

  lemma AcceptFailsKeepsInv(s: State, id: nat)
    requires Inv(s) && CanAccept(s, id, AcceptFails)
    ensures Inv(AcceptNext(s, id, AcceptFails))
  {}

  lemma AcceptingKeepsInv(s: State, id: nat, step: AcceptStep)
    requires Inv(s) && CanAccept(s, id, step)
    ensures Inv(AcceptNext(s, id, step))
  {
    hide *;
    match step
    case Claim(_, _, _, _) => ClaimKeepsInv(s, id, step);
    case Fill => FillKeepsInv(s, id);
    case Enlist => EnlistKeepsInv(s, id);
    case Publish(ok) => PublishKeepsInv(s, id, ok);
    case AcceptFails => AcceptFailsKeepsInv(s, id);
  }

  // ---------------------------------------------------------------- markResult

  /** What a markResult may write: a row's outcome, or a give-up after the last attempt. */
  ghost predicate MayWrite(cs: seq<Coupon>, max: int, givenUp: set<Key>, h: Hash, m: Mark) {
    || CarriesRow(cs, m)
    || (m.status == FAILED && m.code.None? && m.key in givenUp && h.attempts.Some? && h.attempts.value >= max)
  }

  lemma MarkCommandTouches(cs: seq<Coupon>, max: int, givenUp: set<Key>, r: Redis, enlisted: set<Key>, m: Mark)
    requires MarkOk(r, enlisted, m) && MayWrite(cs, max, givenUp, r.hashes[m.key], m)
    requires StatusOk(cs, max, givenUp, m.key, r.hashes[m.key])
    ensures var r' := MarkCommand(r, m);
            && Touches(r, r', m.key)
            && r'.hashes[m.key].attempts == r.hashes[m.key].attempts
            && StatusOk(cs, max, givenUp, m.key, r'.hashes[m.key])
  {}

  lemma MarkCommandKeepsInv(s: State, m: Mark, givenUp: set<Key>)
    requires Inv(s) && MarkOk(s.redis, s.enlisted, m) && s.givenUp <= givenUp
    requires MayWrite(s.c.db.coupons, s.max, givenUp, s.redis.hashes[m.key], m)
    ensures Inv(s.(redis := MarkCommand(s.redis, m), givenUp := givenUp))
  {
    assert StatusOk(s.c.db.coupons, s.max, s.givenUp, m.key, s.redis.hashes[m.key]);
    MarkCommandTouches(s.c.db.coupons, s.max, givenUp, s.redis, s.enlisted, m);
    hide MarkCommand, MayWrite, StatusOk, Touches, Inv;
    TouchKeepsAll(s, MarkCommand(s.redis, m), m.key, givenUp);
  }

  lemma TouchKeepsAll(s: State, r': Redis, k: Key, givenUp: set<Key>)
    requires Inv(s) && k in s.enlisted && Touches(s.redis, r', k) && s.givenUp <= givenUp
    requires r'.hashes[k].attempts == s.redis.hashes[k].attempts
    requires StatusOk(s.c.db.coupons, s.max, givenUp, k, r'.hashes[k])
    ensures Inv(s.(redis := r', givenUp := givenUp))
  {
    assert Filled(s.redis, k);
    assert 1 <= s.redis.hashes[k].attempts.value <= s.max;
    var cs := s.c.db.coupons;
    hide Touches, StatusOk;
    TouchKeepsHashes(cs, s.max, s.givenUp, givenUp, s.redis, r', k);
    TouchKeepsEnlisted(s.redis, r', s.enlisted, k);
    TouchKeepsAccepts(s.redis, r', s.enlisted, s.accepts, k);
    TouchKeepsMessages(s.redis, r', s.enlisted, s.requests, s.sending, k);
    TouchKeepsMarks(cs, s.redis, r', s.enlisted, s.marks, k);
    TouchKeepsSched(cs, s.max, s.redis, r', s.enlisted, s.sched, k);
    hide HashesOk, EnlistedOk, AcceptsOk, MessagesOk, MarksOk, SchedOk, OriginOk;
  }

  /** Between its commands a markResult keeps its facts; the status command has made them stronger. */
  lemma MarkGoesOn(r: Redis, enlisted: set<Key>, m: Mark)
    requires MarkOk(r, enlisted, m) && MarkAfter(m).Some?
    ensures MarkOk(MarkCommand(r, m), enlisted, MarkAfter(m).value)
    ensures MarkAfter(m).value.(pc := m.pc) == m
  {}

  /** Steps that change nothing but where the result consumer stands. */
  lemma MarksMove(s: State, marks: map<nat, Mark>, resolved: set<nat>)
    requires Inv(s) && MarksOk(s.c.db.coupons, s.redis, s.enlisted, marks)
    ensures Inv(s.(marks := marks, resolved := resolved))
  {}

  lemma MarksAdvance(cs: seq<Coupon>, r: Redis, r': Redis, e: set<Key>, marks: map<nat, Mark>, id: nat)
    requires MarksOk(cs, r, e, marks) && MarksOk(cs, r', e, marks) && id in marks && r' == MarkCommand(r, marks[id])
    ensures MarkAfter(marks[id]).Some? ==> MarksOk(cs, r', e, marks[id := MarkAfter(marks[id]).value])
    ensures MarksOk(cs, r', e, C.Without(marks, id))
  {
    if MarkAfter(marks[id]).Some? { MarkGoesOn(r, e, marks[id]); }
  }

  lemma MarkNextKeepsInv(s: State, id: nat)
    requires Inv(s) && CanMark(s, id, MarkNext)
    ensures Inv(MarkingNext(s, id, MarkNext))
  {
    var m := s.marks[id];
    var t := s.(redis := MarkCommand(s.redis, m), givenUp := s.givenUp);
    assert MarkOk(s.redis, s.enlisted, m) && CarriesRow(s.c.db.coupons, m);
    MarkCommandKeepsInv(s, m, s.givenUp);
    hide MarkCommand, MarkAfter, MarkOk, CarriesRow;
    hide MarksOk, HashesOk, EnlistedOk, AcceptsOk, MessagesOk, SchedOk, OriginOk, C.Inv;
    MarksAdvance(s.c.db.coupons, s.redis, t.redis, s.enlisted, s.marks, id);
    MarksMove(t, MarkingNext(s, id, MarkNext).marks, MarkingNext(s, id, MarkNext).resolved);
  }

  /** What the result consumer writes is what the scheduler would have written from the row. */
  lemma BothPathsAgree(m: ResultPayload, c: Coupon)
    requires Tells(m, c)
    ensures ValidResult(m) && ResultKey(m) == CouponKey(c)
    ensures MapResultStatus(m.status.value) == MapRowStatus(c.status)
    ensures m.couponCode.Some? ==> m.couponCode.value == c.code
  {}

  lemma ResultCarriesRow(c: C.State, m: ResultPayload) returns (row: nat)
    requires C.Inv(c) && m in c.topic
    ensures ValidResult(m) && CarriesRow(c.db.coupons, MarkOf(m))
    ensures row < |c.db.coupons| && CouponKey(c.db.coupons[row]) == ResultKey(m)
  {
    hide C.Inv;
    row := CT.TopicTellsARow(c, m);
    BothPathsAgree(m, c.db.coupons[row]);
    hide Tells, ValidResult;
  }

  lemma AskedIsEnlisted(r: Redis, e: set<Key>, requests: seq<RequestPayload>, sending: set<RequestPayload>, k: Key)
    requires MessagesOk(r, e, requests, sending) && k in Asked(requests)
    ensures k in e && Filled(r, k)
  {
    var m :| m in requests && RequestKey(m) == k;
    assert MessageOk(r, e, m);
    hide MessagesOk;
  }

  lemma DeliverKeepsInv(s: State, j: nat)
    requires Inv(s) && CanMark(s, j, Deliver)
    ensures Inv(MarkingNext(s, j, Deliver))
  {
    hide HashesOk, EnlistedOk, AcceptsOk, MessagesOk, SchedOk, CarriesRow, C.Inv, ValidResult;
    var m := s.c.topic[j];
    var row := ResultCarriesRow(s.c, m);
    assert CouponKey(s.c.db.coupons[row]) in Asked(s.requests);
    AskedIsEnlisted(s.redis, s.enlisted, s.requests, s.sending, ResultKey(m));
    assert MarkOk(s.redis, s.enlisted, MarkOf(m));
    hide MarkOk, OriginOk;
    MarksMove(s, s.marks[j := MarkOf(m)], s.resolved);
  }

  lemma ConsumingKeepsInv(s: State, id: nat, step: MarkStep)
    requires Inv(s) && CanMark(s, id, step)
    ensures Inv(MarkingNext(s, id, step))
  {
    hide Inv;
    match step
    case Deliver => DeliverKeepsInv(s, id);
    case MarkNext => MarkNextKeepsInv(s, id);
    case MarkRetry => MarkRetryKeepsInv(s, id);
    case _ => MarkStopsKeepsInv(s, id, step);
  }

  lemma MarksStartOver(cs: seq<Coupon>, r: Redis, e: set<Key>, marks: map<nat, Mark>, id: nat)
    requires MarksOk(cs, r, e, marks) && id in marks
    ensures MarksOk(cs, r, e, marks[id := marks[id].(pc := SettingStatus)])
  {
    assert MarkOk(r, e, marks[id]) && CarriesRow(cs, marks[id]);
  }

  lemma MarkRetryKeepsInv(s: State, id: nat)
    requires Inv(s) && CanMark(s, id, MarkRetry)
    ensures Inv(MarkingNext(s, id, MarkRetry))
  {
    MarksStartOver(s.c.db.coupons, s.redis, s.enlisted, s.marks, id);
    hide Inv, MarksOk;
    MarksMove(s, MarkingNext(s, id, MarkRetry).marks, s.resolved);
  }

  lemma MarkStopsKeepsInv(s: State, id: nat, step: MarkStep)
    requires Inv(s) && CanMark(s, id, step) && (step.MarkFails? || step.Commit? || step.TakenBack?)
    ensures Inv(MarkingNext(s, id, step))
  {
    var s' := MarkingNext(s, id, step);
    MarksMove(s, s'.marks, s'.resolved);
    CommitsDoNotMatter(s.(marks := s'.marks, resolved := s'.resolved), s'.committed);
    hide Inv;
  }

  lemma CommitsDoNotMatter(s: State, committed: set<nat>)
    requires Inv(s)
    ensures Inv(s.(committed := committed))
  {}

  // ---------------------------------------------------------------- the scheduler

  lemma ToQueue(cs: seq<Coupon>, max: int, r: Redis, e: set<Key>, queue: seq<PendingIssue>)
    requires QueueOk(r, e, queue)
    ensures SchedOk(cs, max, r, e, Back(queue))
    ensures queue != [] ==> QueueOk(r, e, queue[1..]) && ItemOk(r, e, queue[0]) && NotQueued(queue[1..], queue[0].key)
  {}

  /** Steps that change nothing but where the scheduler stands. */
  lemma SchedMoves(s: State, sched: Scheduler)
    requires Inv(s) && SchedOk(s.c.db.coupons, s.max, s.redis, s.enlisted, sched)
    ensures Inv(s.(sched := sched))
  {}

  lemma SweepKeepsInv(s: State, members: seq<Key>)
    requires Inv(s) && CanSchedule(s, Sweep(members))
    ensures Inv(SchedNext(s, Sweep(members)))
  {
    SchedMoves(s, Fetching(members, []));
  }

  /** A member that is read joins what was read before. */
  lemma FetchedJoins(cs: seq<Coupon>, max: int, r: Redis, e: set<Key>, todo: seq<Key>, got: seq<PendingIssue>)
    requires SchedOk(cs, max, r, e, Fetching(todo, got)) && todo != [] && EnlistedOk(r, e)
    ensures todo[0] in r.hashes && ReadPending(todo[0], r.hashes[todo[0]]).Some?
    ensures SchedOk(cs, max, r, e, Fetching(todo[1..], got + [ReadPending(todo[0], r.hashes[todo[0]]).value]))
  {
    var k := todo[0];
    assert k in e && Filled(r, k);
    var p := ReadPending(k, r.hashes[k]).value;
    assert ItemOk(r, e, p) && p.key == k;
    hide Filled, EnlistedOk, ItemOk, ReadPending;
    assert QueueOk(r, e, got + [p]);
  }

  lemma FetchKeepsInv(s: State)
    requires Inv(s) && CanSchedule(s, FetchOne)
    ensures Inv(SchedNext(s, FetchOne))
  {
    hide C.Inv, HashesOk, EnlistedOk, AcceptsOk, MessagesOk, MarksOk, OriginOk, QueueOk, ReadPending;
    var todo, got := s.sched.todo, s.sched.got;
    if todo == [] {
      ToQueue(s.c.db.coupons, s.max, s.redis, s.enlisted, got);
      SchedMoves(s, Back(got));
    } else {
      FetchedJoins(s.c.db.coupons, s.max, s.redis, s.enlisted, todo, got);
      SchedMoves(s, SchedNext(s, FetchOne).sched);
    }
    hide SchedOk;
  }

  /** What a visit decides for the first entry of the queue. */
  lemma DecidedIsOk(cs: seq<Coupon>, max: int, r: Redis, e: set<Key>, queue: seq<PendingIssue>, row: Option<nat>, now: int)
    requires QueueOk(r, e, queue) && queue != []
    requires row.Some? ==> row.value < |cs| && CouponKey(cs[row.value]) == queue[0].key
    ensures SchedOk(cs, max, r, e,
                    System.Decided(max, queue[0], if row.Some? then Some(cs[row.value]) else None, now, queue[1..]))
  {
    ToQueue(cs, max, r, e, queue);
    assert Filled(r, queue[0].key);
    if row.Some? {
      var c := cs[row.value];
      assert CarriesRow(cs, Mark(queue[0].key, MapRowStatus(c.status), Some(c.code), SettingStatus));
    }
    hide QueueOk, NotQueued, RowMaps, RowHasCode;
  }

  lemma VisitKeepsInv(s: State, row: Option<nat>, now: int)
    requires Inv(s) && CanSchedule(s, Visit(row, now))
    ensures Inv(SchedNext(s, Visit(row, now)))
  {
    hide C.Inv, HashesOk, EnlistedOk, AcceptsOk, MessagesOk, MarksOk, OriginOk, QueueOk, HasKey;
    DecidedIsOk(s.c.db.coupons, s.max, s.redis, s.enlisted, s.sched.queue, row, now);
    SchedMoves(s, SchedNext(s, Visit(row, now)).sched);
    hide SchedOk;
  }

  lemma SchedMarkKeepsInv(s: State)
    requires Inv(s) && CanSchedule(s, SchedMarkNext)
    ensures Inv(SchedNext(s, SchedMarkNext))
  {
    var m := s.sched.mark;
    var givenUp := if s.sched.givingUp then s.givenUp + {m.key} else s.givenUp;
    MarkCommandKeepsInv(s, m, givenUp);
    assert StatusOk(s.c.db.coupons, s.max, s.givenUp, m.key, s.redis.hashes[m.key]);
    MarkCommandTouches(s.c.db.coupons, s.max, givenUp, s.redis, s.enlisted, m);
    var t := s.(redis := MarkCommand(s.redis, m), givenUp := givenUp);
    TouchKeepsQueue(s.redis, t.redis, s.enlisted, s.sched.queue, m.key);
    ToQueue(t.c.db.coupons, t.max, t.redis, t.enlisted, s.sched.queue);
    if MarkAfter(m).Some? { MarkGoesOn(s.redis, s.enlisted, m); }
    hide MarkCommand, Touches;
    SchedMoves(t, SchedNext(s, SchedMarkNext).sched);
  }

  /** HINCRBY: the one command that counts an attempt, at most up to the cap. */
  lemma CountTouches(cs: seq<Coupon>, max: int, givenUp: set<Key>, r: Redis, k: Key)
    requires Filled(r, k) && StatusOk(cs, max, givenUp, k, r.hashes[k])
    ensures var r' := HincrAttempts(r, k);
            && Touches(r, r', k) && StatusOk(cs, max, givenUp, k, r'.hashes[k])
            && r'.hashes[k].attempts == Some(r.hashes[k].attempts.value + 1)
  {}

  lemma CountKeepsInv(s: State)
    requires Inv(s) && s.sched.Republishing? && s.sched.pc.Counting?
    ensures Inv(RepublishStep(s, false))
  {
    var k := s.sched.p.key;
    var r' := HincrAttempts(s.redis, k);
    var cs := s.c.db.coupons;
    CountTouches(cs, s.max, s.givenUp, s.redis, k);
    assert 1 <= s.redis.hashes[k].attempts.value;
    hide HincrAttempts, StatusOk;
    TouchKeepsHashes(cs, s.max, s.givenUp, s.givenUp, s.redis, r', k);
    TouchKeepsEnlisted(s.redis, r', s.enlisted, k);
    TouchKeepsAccepts(s.redis, r', s.enlisted, s.accepts, k);
    TouchKeepsMessages(s.redis, r', s.enlisted, s.requests, s.sending, k);
    TouchKeepsMarks(cs, s.redis, r', s.enlisted, s.marks, k);
    TouchKeepsQueue(s.redis, r', s.enlisted, s.sched.queue, k);
    assert SchedOk(cs, s.max, r', s.enlisted, s.sched.(pc := Stamping));
    hide HashesOk, EnlistedOk, AcceptsOk, MessagesOk, MarksOk, SchedOk, OriginOk;
  }

  lemma StampKeepsInv(s: State, r': Redis, pc: RepublishPc)
    requires Inv(s) && s.sched.Republishing? && !pc.Counting?
    requires Touches(s.redis, r', s.sched.p.key)
    requires r'.hashes[s.sched.p.key].(lastPublishedAt := None) == s.redis.hashes[s.sched.p.key].(lastPublishedAt := None)
    ensures Inv(s.(redis := r', sched := s.sched.(pc := pc)))
  {
    var k := s.sched.p.key;
    assert StatusOk(s.c.db.coupons, s.max, s.givenUp, k, r'.hashes[k]);
    TouchKeepsAll(s, r', k, s.givenUp);
    SchedMoves(s.(redis := r', givenUp := s.givenUp), s.sched.(pc := pc));
  }

  lemma ResentIsTheMessage(cs: seq<Coupon>, max: int, r: Redis, e: set<Key>, sched: Scheduler)
    requires SchedOk(cs, max, r, e, sched) && sched.Republishing? && ValidRequest(RebuiltPayload(sched.p))
    ensures MessageOk(r, e, RebuiltPayload(sched.p))
  {
    hide QueueOk, NotQueued, ValidRequest;
  }

  lemma ResendKeepsInv(s: State, ok: bool)
    requires Inv(s) && CanSchedule(s, RepublishNext(ok)) && s.sched.pc.Resending?
    ensures Inv(RepublishStep(s, ok))
  {
    hide C.Inv, HashesOk, EnlistedOk, AcceptsOk, MessagesOk, MarksOk, OriginOk, MessageOk;
    var m := RebuiltPayload(s.sched.p);
    ToQueue(s.c.db.coupons, s.max, s.redis, s.enlisted, s.sched.queue);
    SchedMoves(s, Back(s.sched.queue));
    if ValidRequest(m) {
      ResentIsTheMessage(s.c.db.coupons, s.max, s.redis, s.enlisted, s.sched);
      MessagesAdd(s.redis, s.enlisted, s.requests, s.sending, m);
    }
    OriginGrows(s.c, s.requests, m);
    hide ValidRequest, SchedOk;
  }

  lemma StampingKeepsInv(s: State)
    requires Inv(s) && s.sched.Republishing? && s.sched.pc.Stamping?
    ensures Inv(RepublishStep(s, false))
  {
    StampKeepsInv(s, HsetLastPublished(s.redis, s.sched.p.key, s.sched.at), Rescoring);
  }

  lemma RescoringKeepsInv(s: State)
    requires Inv(s) && s.sched.Republishing? && s.sched.pc.Rescoring?
    ensures Inv(RepublishStep(s, false))
  {
    StampKeepsInv(s, Zadd(s.redis, s.sched.p.key, s.sched.at), Resending);
  }

  lemma RepublishKeepsInv(s: State, ok: bool)
    requires Inv(s) && CanSchedule(s, RepublishNext(ok))
    ensures Inv(SchedNext(s, RepublishNext(ok)))
  {
    hide Inv;
    match s.sched.pc
    case Counting => CountKeepsInv(s);
    case Stamping => StampingKeepsInv(s);
    case Rescoring => RescoringKeepsInv(s);
    case Resending => ResendKeepsInv(s, ok);
  }

  lemma ItemFailsKeepsInv(s: State)
    requires Inv(s) && CanSchedule(s, ItemFails)
    ensures Inv(SchedNext(s, ItemFails))
  {
    ToQueue(s.c.db.coupons, s.max, s.redis, s.enlisted, s.sched.queue);
    if s.sched.Working? { ToQueue(s.c.db.coupons, s.max, s.redis, s.enlisted, s.sched.queue[1..]); }
    SchedMoves(s, SchedNext(s, ItemFails).sched);
  }

  lemma RecoveringKeepsInv(s: State, step: SchedStep)
    requires Inv(s) && CanSchedule(s, step)
    ensures Inv(SchedNext(s, step))
  {
    match step
    case Sweep(members) => hide *; SweepKeepsInv(s, members);
    case FetchOne => hide *; FetchKeepsInv(s);
    case Visit(row, now) => hide *; VisitKeepsInv(s, row, now);
    case SchedMarkNext => hide *; SchedMarkKeepsInv(s);
    case RepublishNext(ok) => hide *; RepublishKeepsInv(s, ok);
    case ItemFails => hide *; ItemFailsKeepsInv(s);
    case SchedCrashes => SchedMoves(s, Resting);
  }

  // ---------------------------------------------------------------- server-c and the topic

  ghost predicate FactsStay(cs: seq<Coupon>, cs': seq<Coupon>, k: Key) {
    && (forall status | RowMaps(cs, k, status) :: RowMaps(cs', k, status))
    && forall code | RowHasCode(cs, k, code) :: RowHasCode(cs', k, code)
  }

  lemma RowFactsStay(cs: seq<Coupon>, cs': seq<Coupon>, k: Key)
    requires CT.RowsExtend(cs, cs')
    ensures FactsStay(cs, cs', k)
  {
    forall status | RowMaps(cs, k, status) ensures RowMaps(cs', k, status) {
      var i :| 0 <= i < |cs| && CouponKey(cs[i]) == k && MapRowStatus(cs[i].status) == status;
      assert CouponKey(cs'[i]) == k;
    }
    forall code | RowHasCode(cs, k, code) ensures RowHasCode(cs', k, code) {
      var i :| 0 <= i < |cs| && CouponKey(cs[i]) == k && cs[i].code == code;
      assert CouponKey(cs'[i]) == k;
    }
  }

  lemma StatusStays(cs: seq<Coupon>, cs': seq<Coupon>, max: int, givenUp: set<Key>, k: Key, h: Hash)
    requires StatusOk(cs, max, givenUp, k, h) && CT.RowsExtend(cs, cs')
    ensures StatusOk(cs', max, givenUp, k, h)
  {
    RowFactsStay(cs, cs', k);
    hide RowMaps, RowHasCode, CT.RowsExtend;
  }

  lemma CarriesRowStays(cs: seq<Coupon>, cs': seq<Coupon>, m: Mark)
    requires CarriesRow(cs, m) && CT.RowsExtend(cs, cs')
    ensures CarriesRow(cs', m)
  {
    RowFactsStay(cs, cs', m.key);
    hide RowMaps, RowHasCode, CT.RowsExtend;
  }

  lemma RowsKeepHashes(cs: seq<Coupon>, cs': seq<Coupon>, max: int, givenUp: set<Key>, r: Redis)
    requires HashesOk(cs, max, givenUp, r) && CT.RowsExtend(cs, cs')
    ensures HashesOk(cs', max, givenUp, r)
  {
    hide StatusOk, CT.RowsExtend;
    forall k | k in r.hashes ensures StatusOk(cs', max, givenUp, k, r.hashes[k]) {
      StatusStays(cs, cs', max, givenUp, k, r.hashes[k]);
    }
  }

  lemma RowsKeepMarks(cs: seq<Coupon>, cs': seq<Coupon>, r: Redis, e: set<Key>, marks: map<nat, Mark>)
    requires MarksOk(cs, r, e, marks) && CT.RowsExtend(cs, cs')
    ensures MarksOk(cs', r, e, marks)
  {
    hide MarkOk, CarriesRow, CT.RowsExtend;
    forall i | i in marks ensures CarriesRow(cs', marks[i]) { CarriesRowStays(cs, cs', marks[i]); }
  }

  lemma RowsKeepSched(cs: seq<Coupon>, cs': seq<Coupon>, max: int, r: Redis, e: set<Key>, sched: Scheduler)
    requires SchedOk(cs, max, r, e, sched) && CT.RowsExtend(cs, cs')
    ensures SchedOk(cs', max, r, e, sched)
  {
    hide QueueOk, MarkOk, CarriesRow, CT.RowsExtend, NotQueued;
    if sched.Marking? && !sched.givingUp { CarriesRowStays(cs, cs', sched.mark); }
  }

  lemma RowsKeepAgreement(s: State, cs': seq<Coupon>)
    requires Inv(s) && CT.RowsExtend(s.c.db.coupons, cs')
    ensures HashesOk(cs', s.max, s.givenUp, s.redis)
    ensures MarksOk(cs', s.redis, s.enlisted, s.marks)
    ensures SchedOk(cs', s.max, s.redis, s.enlisted, s.sched)
  {
    hide HashesOk, MarksOk, SchedOk, C.Inv, EnlistedOk, AcceptsOk, MessagesOk, OriginOk, CT.RowsExtend;
    RowsKeepHashes(s.c.db.coupons, cs', s.max, s.givenUp, s.redis);
    RowsKeepMarks(s.c.db.coupons, cs', s.redis, s.enlisted, s.marks);
    RowsKeepSched(s.c.db.coupons, cs', s.max, s.redis, s.enlisted, s.sched);
  }

  lemma TxsOrigin(c: C.State, id: nat, step: C.IssueStep, requests: seq<RequestPayload>)
    requires C.CanIssue(c, id, step)
    requires forall i | i in c.txs :: c.txs[i].a.req in requests
    requires step.Begin? ==> step.a.req in requests
    ensures forall i | i in C.IssueNext(c, id, step).txs :: C.IssueNext(c, id, step).txs[i].a.req in requests
  {}

  ghost predicate RowsFrom(cs: seq<Coupon>, e: set<Key>) {
    forall i | 0 <= i < |cs| :: CouponKey(cs[i]) in e
  }

  /** A row that is added is the row of a transaction that was under way. */
  lemma IssuingKeepsRowsFrom(c: C.State, id: nat, step: C.IssueStep, e: set<Key>)
    requires C.TxsOk(c.events, c.db, c.txs) && C.CanIssue(c, id, step) && RowsFrom(c.db.coupons, e)
    requires forall i | i in c.txs :: AttemptKey(c.txs[i].a) in e
    ensures RowsFrom(C.IssueNext(c, id, step).db.coupons, e)
  {
    if !step.Commit? && !step.CommitThenCrash? {
      CT.IssueBodyWritesNothing(c, id, step);
      hide *;
    } else {
      assert C.TxOk(c.events, c.db, c.txs[id]);
    }
  }

  lemma RedeemingKeepsRowsFrom(c: C.State, id: nat, step: C.CallStep, e: set<Key>)
    requires C.CanCall(c, id, step) && RowsFrom(c.db.coupons, e)
    ensures C.CallNext(c, id, step).txs == c.txs
    ensures RowsFrom(C.CallNext(c, id, step).db.coupons, e)
  {
    if !step.CallCommit? { CT.CallBodyWritesNothing(c, id, step); }
  }

  /** server-c works on nothing but what came over the topic. */
  lemma ServerKeepsOrigin(c: C.State, step: C.Step, requests: seq<RequestPayload>)
    requires C.TxsOk(c.events, c.db, c.txs) && C.Enabled(c, step) && OriginOk(c, requests)
    requires step.Issuing? && step.issue.Begin? ==> step.issue.a.req in requests
    ensures OriginOk(C.Apply(c, step), requests)
  {
    hide C.TxsOk, C.CanIssue, C.IssueNext, C.CanCall, C.CallNext;
    assert forall i | i in c.txs :: RequestKey(c.txs[i].a.req) in Asked(requests);
    match step
    case Issuing(id, st) =>
      IssuingKeepsRowsFrom(c, id, st, Asked(requests));
      TxsOrigin(c, id, st, requests);
    case Redeeming(id, st) => RedeemingKeepsRowsFrom(c, id, st, Asked(requests));
    case Relaying(st) =>
  }

  lemma ServerKeepsInv(s: State, step: C.Step)
    requires Inv(s) && Enabled(s, Server(step))
    ensures Inv(Apply(s, Server(step)))
  {
    CP.StepKeepsInv(s.c, step);
    CT.StepExtendsRows(s.c, step);
    RowsKeepAgreement(s, C.Apply(s.c, step).db.coupons);
    assert C.TxsOk(s.c.events, s.c.db, s.c.txs);
    ServerKeepsOrigin(s.c, step, s.requests);
    hide C.Inv, C.Enabled, C.Apply, CT.RowsExtend;
    hide HashesOk, EnlistedOk, AcceptsOk, MessagesOk, MarksOk, SchedOk, OriginOk;
  }

  lemma LateSendKeepsInv(s: State, m: RequestPayload)
    requires Inv(s) && m in s.sending
    ensures Inv(Apply(s, LateSend(m)))
  {
    assert MessageOk(s.redis, s.enlisted, m);
    MessagesAdd(s.redis, s.enlisted, s.requests, s.sending, m);
    OriginGrows(s.c, s.requests, m);
    hide HashesOk, EnlistedOk, AcceptsOk, MessagesOk, MarksOk, SchedOk, OriginOk;
  }

  lemma StepKeepsInv(s: State, step: Step)
    requires Inv(s) && Enabled(s, step)
    ensures Inv(Apply(s, step))
  {
    match step
    case Server(st) => hide Inv, Enabled, Apply; ServerKeepsInv(s, st);
    case Accepting(id, st) => hide Inv, CanAccept, AcceptNext; AcceptingKeepsInv(s, id, st);
    case Consuming(id, st) => hide Inv, CanMark, MarkingNext; ConsumingKeepsInv(s, id, st);
    case Recovering(st) => hide Inv, CanSchedule, SchedNext; RecoveringKeepsInv(s, st);
    case LateSend(m) => hide Inv; LateSendKeepsInv(s, m);
  }

  lemma InitHasInv(s: State)
    requires Init(s)
    ensures Inv(s)
  {
    CP.InitHasInv(s.c);
    hide C.Inv;
  }

  lemma {:induction false} RunKeepsInv(s: State, steps: seq<Step>)
    requires Inv(s) && Runs(s, steps)
    ensures Inv(After(s, steps))
    decreases steps
  {
    hide Inv, Enabled, Apply;
    if steps != [] {
      StepKeepsInv(s, steps[0]);
      RunKeepsInv(Apply(s, steps[0]), steps[1..]);
    }
  }

  // ---------------------------------------------------------------- runs

  lemma NoSteps(s: State)
    ensures Runs(s, []) && After(s, []) == s
  {}

  lemma {:induction false} OneMore(s: State, steps: seq<Step>, step: Step)
    requires Runs(s, steps) && Enabled(After(s, steps), step)
    ensures Runs(s, steps + [step]) && After(s, steps + [step]) == Apply(After(s, steps), step)
    decreases steps
  {
    hide Enabled, Apply;
    if steps == [] {
      assert [] + [step] == [step] && [step][1..] == [];
      assert Runs(Apply(s, step), []);
    } else {
      assert (steps + [step])[1..] == steps[1..] + [step];
      OneMore(Apply(s, steps[0]), steps[1..], step);
    }
  }
}
