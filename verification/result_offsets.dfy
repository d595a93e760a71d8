/** How the result consumer's offsets and the records it works on belong together. */
module ResultOffsets {
  import opened Payloads
  import opened CouponDb
  import opened Redis
  import opened System
  import opened Basics
  import C = ServerC

  /** A markResult under way is the one of its record, wherever it stands. */
  predicate IsMarkOf(m: Mark, p: ResultPayload) {
    ValidResult(p) && m == MarkOf(p).(pc := m.pc)
  }

  ghost predicate OffsetsOk(s: State) {
    && s.committed <= s.resolved
    && (forall j | j in s.resolved :: j < |s.c.topic|)
    && forall j | j in s.marks :: j < |s.c.topic| && j !in s.resolved && IsMarkOf(s.marks[j], s.c.topic[j])
  }

  /** Poller and topic are where they were, and the outbox at most longer. */
  predicate RelayStays(c: C.State, c': C.State) {
    && c'.poller == c.poller && c'.topic == c.topic && |c.db.outbox| <= |c'.db.outbox|
    && forall n | 0 <= n < |c.db.outbox| :: c'.db.outbox[n] == c.db.outbox[n]
  }

  lemma IssuesLeaveRelay(c: C.State, id: nat, step: C.IssueStep)
    requires C.CanIssue(c, id, step)
    ensures RelayStays(c, C.IssueNext(c, id, step))
  {
    hide HasKey, HasCode, C.CodeFree, C.KeyFree, C.StockFree, ValidRequest, CodeFor, CouponFor, ToResultPayload;
  }

  lemma CallsLeaveRelay(c: C.State, id: nat, step: C.CallStep)
    requires C.CanCall(c, id, step)
    ensures RelayStays(c, C.CallNext(c, id, step))
  {
    hide C.FindCode, MarkUsed, C.CouponFree;
  }

  lemma NoPollLeavesRelay(c: C.State, step: C.Step)
    requires C.Enabled(c, step) && !step.Relaying?
    ensures RelayStays(c, C.Apply(c, step))
  {
    hide RelayStays, C.CanIssue, C.CanCall, C.CanPoll, C.IssueNext, C.CallNext, C.PollNext;
    match step
    case Issuing(id, st) => IssuesLeaveRelay(c, id, st);
    case Redeeming(id, st) => CallsLeaveRelay(c, id, st);
  }

  lemma PollsGrowTopic(c: C.State, step: C.PollStep)
    requires C.CanPoll(c, step)
    ensures c.topic <= C.PollNext(c, step).topic
  {}

  lemma TopicOnlyGrows(c: C.State, step: C.Step)
    requires C.Enabled(c, step)
    ensures c.topic <= C.Apply(c, step).topic
  {
    hide C.CanIssue, C.CanCall, C.CanPoll, C.IssueNext, C.CallNext, C.PollNext;
    if step.Relaying? { PollsGrowTopic(c, step.poll); } else { NoPollLeavesRelay(c, step); }
  }

  /** server-c and the result consumer are where they were. */
  predicate ConsumerStays(s: State, s': State) {
    s'.c == s.c && s'.marks == s.marks && s'.resolved == s.resolved && s'.committed == s.committed
  }

  lemma AcceptsLeaveConsumer(s: State, id: nat, step: AcceptStep)
    requires CanAccept(s, id, step)
    ensures ConsumerStays(s, AcceptNext(s, id, step))
  {
    hide ValidRequest, HsetnxUserId, HsetPending, Zadd, Claims;
  }

  lemma SchedulerLeavesConsumer(s: State, step: SchedStep)
    requires CanSchedule(s, step)
    ensures ConsumerStays(s, SchedNext(s, step))
  {
    hide ValidRequest, MarkCommand, HasKey, ReadPending, System.Decided, Back, Distinct;
    hide HincrAttempts, HsetLastPublished, Zadd, Zrem;
  }

  lemma OthersLeaveConsumer(s: State, step: Step)
    requires Enabled(s, step) && !step.Server? && !step.Consuming?
    ensures ConsumerStays(s, Apply(s, step))
  {
    hide CanAccept, AcceptNext, CanSchedule, SchedNext;
    match step
    case Accepting(id, st) => AcceptsLeaveConsumer(s, id, st);
    case Recovering(st) => SchedulerLeavesConsumer(s, st);
    case LateSend(_) =>
  }

  lemma ConsumingKeepsOffsets(s: State, j: nat, step: MarkStep)
    requires OffsetsOk(s) && CanMark(s, j, step)
    ensures OffsetsOk(MarkingNext(s, j, step))
  {
    hide MarkCommand, ValidResult;
  }

  lemma StepKeepsOffsets(s: State, step: Step)
    requires OffsetsOk(s) && Enabled(s, step)
    ensures OffsetsOk(Apply(s, step))
  {
    if step.Consuming? {
      ConsumingKeepsOffsets(s, step.offset, step.mark);
      hide OffsetsOk, CanMark, MarkingNext;
    } else if step.Server? {
      TopicOnlyGrows(s.c, step.step);
      hide C.Enabled, C.Apply, IsMarkOf;
    } else {
      OthersLeaveConsumer(s, step);
      hide Enabled, Apply, IsMarkOf;
    }
  }

  lemma {:induction false} RunKeepsOffsets(s: State, steps: seq<Step>)
    requires OffsetsOk(s) && Runs(s, steps)
    ensures OffsetsOk(After(s, steps))
    decreases steps
  {
    hide OffsetsOk, Enabled, Apply;
    if steps != [] {
      StepKeepsOffsets(s, steps[0]);
      RunKeepsOffsets(Apply(s, steps[0]), steps[1..]);
    }
  }
}
