/**
 * One application from its accept to its result, with a visit of the scheduler that asks server-c
 * just before it has the row and stands still while the result is written.
 */
module Scenario {
  import opened Payloads
  import opened CouponDb
  import opened Redis
  import opened System
  import opened SystemProofs
  import C = ServerC

  const KEY := Key(1, 1)
  const STOCK := StockKey(1, 1)
  const REQUEST := FirstPayload(KEY, "r", 1, 10)
  const ATTEMPT := Attempt(REQUEST, 50, "CODE")
  const FULL := Db(map[STOCK := Stock(1, 1)], [], [])
  const EVENTS := map[1 := Event(0, 100)]
  const EMPTY := Redis(map[], map[])

  /** One event, one coupon, max attempts. */
  function Start(max: nat): State {
    State(C.State(EVENTS, FULL, FULL, map[], map[], [], C.Idle, [], {}, {}, []),
          max, EMPTY, map[], map[], {}, {}, Resting, [], {}, {}, {}, {})
  }

  lemma StartIsInitial(max: nat)
    requires max >= 1
    ensures Init(Start(max))
  {}

  const STORED := Hash(Some(1), Some("r"), Some(1), Some(1), Some(PENDING), Some(10), Some(1), Some(10), None)
  const FOUND := PendingIssue(KEY, "r", 1, PENDING, 10, 1)
  const GIVING_UP := Marking(Mark(KEY, FAILED, None, SettingStatus), true, [])
  const RETRYING := Republishing(FOUND, 20, Counting, [])
  const RESULT := ToResultPayload(ATTEMPT, Success)

  lemma RequestIsValid()
    ensures ValidRequest(REQUEST)
  {
    assert !TrimsAway("r"[0]);
  }

  /** The application is stored, enlisted and sent. */
  function Sent(max: nat): State {
    Start(max).(redis := Redis(map[KEY := STORED], map[KEY := 10]), requests := [REQUEST],
                enlisted := {KEY}, accepted := {KEY})
  }

  const ACCEPT := Accept(KEY, "r", 1, 10, Filling)

  function Claimed(max: nat): State {
    Start(max).(redis := Redis(map[KEY := NO_FIELDS.(userId := Some(1))], map[]), accepts := map[0 := ACCEPT])
  }

  function FilledIn(max: nat): State {
    Start(max).(redis := Redis(map[KEY := STORED], map[]), accepts := map[0 := ACCEPT.(pc := Enlisting)])
  }

  function Enlisted(max: nat): State {
    Sent(max).(requests := [], accepted := {}, accepts := map[0 := ACCEPT.(pc := Publishing)])
  }

  lemma FillIt(max: nat)
    ensures Enabled(Start(max), Accepting(0, Claim(KEY, "r", 1, 10)))
    ensures Apply(Start(max), Accepting(0, Claim(KEY, "r", 1, 10))) == Claimed(max)
    ensures Enabled(Claimed(max), Accepting(0, Fill)) && Apply(Claimed(max), Accepting(0, Fill)) == FilledIn(max)
  {
    assert HashOf(EMPTY, KEY) == NO_FIELDS;
    assert map[KEY := NO_FIELDS.(userId := Some(1))][KEY := STORED] == map[KEY := STORED];
    assert Claimed(max).accepts[0 := ACCEPT.(pc := Enlisting)] == FilledIn(max).accepts;
  }

  lemma EnlistIt(max: nat)
    ensures Enabled(FilledIn(max), Accepting(0, Enlist)) && Apply(FilledIn(max), Accepting(0, Enlist)) == Enlisted(max)
    ensures Enabled(Enlisted(max), Accepting(0, Publish(true)))
    ensures Apply(Enlisted(max), Accepting(0, Publish(true))) == Sent(max)
  {
    RequestIsValid();
    assert {} + {KEY} == {KEY};
    assert FilledIn(max).accepts[0 := ACCEPT.(pc := Publishing)] == Enlisted(max).accepts;
    assert C.Without(Enlisted(max).accepts, 0) == map[];
    assert [] + [REQUEST] == [REQUEST];
  }

  lemma AcceptIt(max: nat) returns (run: seq<Step>)
    ensures Runs(Start(max), run) && After(Start(max), run) == Sent(max)
  {
    NoSteps(Start(max));
    FillIt(max);
    EnlistIt(max);
    hide *;
    var claim, fill, enlist, publish := Accepting(0, Claim(KEY, "r", 1, 10)), Accepting(0, Fill), Accepting(0, Enlist),
                                        Accepting(0, Publish(true));
    OneMore(Start(max), [], claim);
    OneMore(Start(max), [] + [claim], fill);
    OneMore(Start(max), [] + [claim] + [fill], enlist);
    OneMore(Start(max), [] + [claim] + [fill] + [enlist], publish);
    run := [] + [claim] + [fill] + [enlist] + [publish];
  }

  /** The scheduler has asked server-c, found nothing, and is about to give up or, with attempts left, to try again. */
  function AfterVisit(max: nat): State {
    Sent(max).(sched := if max <= 1 then GIVING_UP else RETRYING)
  }

  lemma SweepIt(max: nat, run0: seq<Step>) returns (run: seq<Step>)
    requires Runs(Start(max), run0) && After(Start(max), run0) == Sent(max)
    ensures Runs(Start(max), run) && After(Start(max), run) == AfterVisit(max)
  {
    hide Runs, After;
    var sweep, fetch, visit := Recovering(Sweep([KEY])), Recovering(FetchOne), Recovering(Visit(None, 20));
    OneMore(Start(max), run0, sweep);
    OneMore(Start(max), run0 + [sweep], fetch);
    OneMore(Start(max), run0 + [sweep] + [fetch], fetch);
    OneMore(Start(max), run0 + [sweep] + [fetch] + [fetch], visit);
    run := run0 + [sweep] + [fetch] + [fetch] + [visit];
    assert [] + [FOUND] == [FOUND] && [FOUND][1..] == [];
  }

  /** server-c has issued the coupon. */
  const ISSUED := Issue(EVENTS, FULL, ATTEMPT)

  function WithRow(max: nat): State {
    AfterVisit(max).(c := AfterVisit(max).c.(db := ISSUED, log := [IssueOp(ATTEMPT)],
                                             txs := map[0 := C.Tx(ATTEMPT, C.PostRead)]))
  }

  function Issue0(step: C.IssueStep): Step {
    Server(C.Issuing(0, step))
  }

  function InTx(max: nat, pc: C.Pc): State {
    AfterVisit(max).(c := AfterVisit(max).c.(txs := map[0 := C.Tx(ATTEMPT, pc)]))
  }

  lemma DecideIt(max: nat, run0: seq<Step>) returns (run: seq<Step>)
    requires Runs(Start(max), run0) && After(Start(max), run0) == AfterVisit(max)
    ensures Runs(Start(max), run) && After(Start(max), run) == InTx(max, C.Insert(Success, 1))
  {
    hide Runs, After;
    RequestIsValid();
    hide ValidRequest;
    var begin, exists_, event := Issue0(C.Begin(ATTEMPT)), Issue0(C.ExistsCheck), Issue0(C.EventCheck);
    var lock, decrement := Issue0(C.LockStock), Issue0(C.Decrement);
    OneMore(Start(max), run0, begin);
    OneMore(Start(max), run0 + [begin], exists_);
    OneMore(Start(max), run0 + [begin] + [exists_], event);
    OneMore(Start(max), run0 + [begin] + [exists_] + [event], lock);
    OneMore(Start(max), run0 + [begin] + [exists_] + [event] + [lock], decrement);
    run := run0 + [begin] + [exists_] + [event] + [lock] + [decrement];
  }

  lemma InsertIt(max: nat, run0: seq<Step>) returns (run: seq<Step>)
    requires Runs(Start(max), run0) && After(Start(max), run0) == InTx(max, C.Insert(Success, 1))
    ensures Runs(Start(max), run) && After(Start(max), run) == InTx(max, C.Inserted(Success, 1))
  {
    hide Runs, After;
    var code, key := Issue0(C.InsertCode), Issue0(C.InsertKey);
    OneMore(Start(max), run0, code);
    OneMore(Start(max), run0 + [code], key);
    run := run0 + [code] + [key];
  }

  lemma CommitIt(max: nat, run0: seq<Step>) returns (run: seq<Step>)
    requires Runs(Start(max), run0) && After(Start(max), run0) == InTx(max, C.Inserted(Success, 1))
    ensures Runs(Start(max), run) && After(Start(max), run) == WithRow(max)
  {
    hide Runs, After;
    var append, commit := Issue0(C.AppendOutbox), Issue0(C.Commit);
    OneMore(Start(max), run0, append);
    OneMore(Start(max), run0 + [append], commit);
    run := run0 + [append] + [commit];
  }

  /** Its result is on the topic. */
  function Told(max: nat): State {
    WithRow(max).(c := WithRow(max).c.(topic := [RESULT], poller := C.Polling([], {0})))
  }

  lemma SendIt(max: nat, run0: seq<Step>) returns (run: seq<Step>)
    requires Runs(Start(max), run0) && After(Start(max), run0) == WithRow(max)
    ensures Runs(Start(max), run) && After(Start(max), run) == Told(max)
  {
    hide Runs, After;
    var start, send := Server(C.Relaying(C.PollStart([0]))), Server(C.Relaying(C.PollSend(C.Sent)));
    OneMore(Start(max), run0, start);
    OneMore(Start(max), run0 + [start], send);
    run := run0 + [start] + [send];
    assert [] + [RESULT] == [RESULT] && {} + {0} == {0} && [0][1..] == [];
    assert ISSUED.outbox[0].payload == RESULT;
  }

  /** The result has been written: SUCCESS, with the code, and off the set. */
  function Succeeded(max: nat): State {
    Told(max).(resolved := {0}, redis := Redis(map[KEY := STORED.(status := Some(SUCCESS), code := Some("CODE"))], map[]))
  }

  lemma WriteIt(max: nat, run0: seq<Step>) returns (run: seq<Step>)
    requires Runs(Start(max), run0) && After(Start(max), run0) == Told(max)
    ensures Runs(Start(max), run) && After(Start(max), run) == Succeeded(max)
  {
    hide Runs, After;
    var deliver, mark := Consuming(0, Deliver), Consuming(0, MarkNext);
    OneMore(Start(max), run0, deliver);
    OneMore(Start(max), run0 + [deliver], mark);
    OneMore(Start(max), run0 + [deliver] + [mark], mark);
    OneMore(Start(max), run0 + [deliver] + [mark] + [mark], mark);
    run := run0 + [deliver] + [mark] + [mark] + [mark];
    assert {} + {0} == {0};
  }

  /** The whole scenario: a visit finds nothing, then server-c issues and the result is written. */
  lemma ResultOvertakesVisit(max: nat) returns (run: seq<Step>)
    ensures Runs(Start(max), run) && After(Start(max), run) == Succeeded(max)
  {
    hide *;
    run := AcceptIt(max);
    run := SweepIt(max, run);
    run := DecideIt(max, run);
    run := InsertIt(max, run);
    run := CommitIt(max, run);
    run := SendIt(max, run);
    run := WriteIt(max, run);
  }
}
