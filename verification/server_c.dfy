/**
 * server-c as one step machine: issue transactions, redeem calls, the outbox poller and the
 * post-commit check of the sold-out cache, all interleaved, one statement per step.
 *
 * db holds what is committed. What a transaction has written but not committed lives in its own
 * program counter, which also says which locks it holds; a rollback throws it away. Plain reads see
 * the committed state of the step that opens the snapshot and may be stale afterwards; locking
 * reads, UNIQUE checks and UPDATEs look at the latest state.
 */
module ServerC {
  import opened Payloads
  import opened CouponDb

  /**
   * Where an issue transaction stands. available is the count the locking read returned. The insert
   * takes its UNIQUE keys one after the other, in the order the table declares them: Coded has the
   * code and still needs the user's key.
   */
  datatype Pc =
    | Begun
    | Short
    | Fresh
    | WantStock
    | Locked(available: int)
    | Insert(status: CouponStatus, available: int)
    | Coded(status: CouponStatus, available: int)
    | Inserted(status: CouponStatus, available: int)
    | Appended(status: CouponStatus, available: int)
    | PostRead
    | PostSet

  datatype Tx = Tx(a: Attempt, pc: Pc)

  datatype CallPc = Asked | Read(row: nat, version: nat) | Updated(row: nat, version: nat, now: int)

  /** A redeem call; bornAt is the number of replies already given when it began. */
  datatype Call = Call(code: string, userId: int, bornAt: nat, pc: CallPc)

  /** Unheard: the commit went through but the caller was told of an error. */
  datatype Reply =
    | NotFound
    | InvalidState
    | RaceRetry
    | Redeemed(at: int)
    | Replayed(at: int)
    | Unheard(at: int)
    | Broken

  datatype Answer = Answer(code: string, userId: int, bornAt: nat, reply: Reply)

  datatype Poller = Idle | Polling(todo: seq<nat>, sent: set<nat>)

  /** What a send can come to: the record may be on the topic even when the caller sees an error. */
  datatype SendOutcome = Sent | ErrorButSent | ErrorNotSent

  datatype State = State(
    events: map<int, Event>,
    db0: Db,
    db: Db,
    txs: map<nat, Tx>,
    calls: map<nat, Call>,
    answers: seq<Answer>,
    poller: Poller,
    topic: seq<ResultPayload>,
    cache: set<StockKey>,
    skipped: set<StockKey>,
    log: seq<Op>)

  /** The statements of the issue transaction and of the check after its commit. */
  datatype IssueStep =
    | Begin(a: Attempt)
    | ExistsCheck
    | EventCheck
    | LockStock
    | Decrement
    | InsertCode
    | InsertKey
    | AppendOutbox
    | Commit
    | CommitThenCrash
    | Abort
    | ReadStock
    | SetCache
    | SkipPost

  datatype CallStep =
    | CallBegin(code: string, userId: int)
    | CallRead
    | CallUpdate(now: int)
    | CallCommit(heard: bool)
    | CallAbort

  datatype PollStep =
    | PollStart(ids: seq<nat>)
    | PollSend(outcome: SendOutcome)
    | PollMark
    | PollCrash

  datatype Step =
    | Issuing(id: nat, issue: IssueStep)
    | Redeeming(id: nat, call: CallStep)
    | Relaying(poll: PollStep)

  ghost predicate Init(s: State) {
    && FreshTables(s.db0) && s.db == s.db0
    && s.txs == map[] && s.calls == map[] && s.answers == [] && s.poller == Idle
    && s.topic == [] && s.cache == {} && s.skipped == {} && s.log == []
  }

  // ---------------------------------------------------------------- locks

  predicate HoldsStock(tx: Tx) {
    tx.pc.Locked? || ((tx.pc.Insert? || HoldsCode(tx)) && !tx.pc.status.Failed?)
  }

  /** The code is locked from its index entry on until the transaction ends. */
  predicate HoldsCode(tx: Tx) {
    tx.pc.Coded? || tx.pc.Inserted? || tx.pc.Appended?
  }

  /** And so is the user's key, which makes the row complete. */
  predicate HoldsRow(tx: Tx) {
    tx.pc.Inserted? || tx.pc.Appended?
  }

  predicate StockFree(s: State, k: StockKey) {
    forall j | j in s.txs :: !(HoldsStock(s.txs[j]) && AttemptStockKey(s.txs[j].a) == k)
  }

  predicate CodeClash(tx: Tx, holder: Tx)
    requires tx.pc.Insert?
  {
    HoldsCode(holder) && CodeFor(holder.a, holder.pc.status) == CodeFor(tx.a, tx.pc.status)
  }

  predicate CodeFree(s: State, tx: Tx)
    requires tx.pc.Insert?
  {
    forall j | j in s.txs :: !CodeClash(tx, s.txs[j])
  }

  predicate KeyClash(tx: Tx, holder: Tx) {
    HoldsRow(holder) && AttemptKey(holder.a) == AttemptKey(tx.a)
  }

  predicate KeyFree(s: State, tx: Tx) {
    forall j | j in s.txs :: !KeyClash(tx, s.txs[j])
  }

  predicate CouponFree(s: State, row: nat) {
    forall j | j in s.calls :: !(s.calls[j].pc.Updated? && s.calls[j].pc.row == row)
  }

  // ---------------------------------------------------------------- the steps

  predicate Finishing(pc: Pc) {
    pc.PostRead? || pc.PostSet?
  }

  predicate CanSend(s: State) {
    s.poller.Polling? && s.poller.todo != [] && s.poller.todo[0] < |s.db.outbox|
  }

  predicate CanIssue(s: State, id: nat, step: IssueStep) {
    if step.Begin? then id !in s.txs && ValidRequest(step.a.req)
    else if id !in s.txs then false
    else
      var pc := s.txs[id].pc;
      match step
      case ExistsCheck => pc.Begun?
      case EventCheck => pc.Fresh?
      case LockStock => pc.WantStock? && StockFree(s, AttemptStockKey(s.txs[id].a))
      case Decrement => pc.Locked?
      case InsertCode => pc.Insert? && CodeFree(s, s.txs[id])
      case InsertKey => pc.Coded? && KeyFree(s, s.txs[id])
      case AppendOutbox => pc.Inserted?
      case Commit => pc.Appended? || pc.Short?
      case CommitThenCrash => pc.Appended?
      case Abort => !Finishing(pc)
      case ReadStock => pc.PostRead?
      case SetCache => pc.PostSet?
      case SkipPost => Finishing(pc)
  }

  predicate CanCall(s: State, id: nat, step: CallStep) {
    if step.CallBegin? then id !in s.calls
    else if id !in s.calls then false
    else
      var pc := s.calls[id].pc;
      match step
      case CallRead => pc.Asked?
      case CallUpdate(_) => pc.Read? && CouponFree(s, pc.row)
      case CallCommit(_) => pc.Updated?
      case CallAbort => true
  }

  predicate CanPoll(s: State, step: PollStep) {
    match step
    case PollStart(ids) =>
      && s.poller.Idle?
      && forall i | 0 <= i < |ids| :: ids[i] < |s.db.outbox| && !s.db.outbox[ids[i]].published
    case PollSend(_) => CanSend(s)
    case PollMark => s.poller.Polling? && s.poller.todo == []
    case PollCrash => s.poller.Polling?
  }

  predicate Enabled(s: State, step: Step) {
    match step
    case Issuing(id, st) => CanIssue(s, id, st)
    case Redeeming(id, st) => CanCall(s, id, st)
    case Relaying(st) => CanPoll(s, st)
  }

  function Without<T>(m: map<nat, T>, id: nat): map<nat, T> {
    map j | j in m && j != id :: m[j]
  }

  function Goto(s: State, id: nat, pc: Pc): State
    requires id in s.txs
  {
    s.(txs := s.txs[id := s.txs[id].(pc := pc)])
  }

  function End(s: State, id: nat): State {
    s.(txs := Without(s.txs, id))
  }

  /** The commit: all writes become visible at once; the stock decision is followed by a cache check. */
  function CommitWrites(s: State, id: nat): State
    requires id in s.txs && s.txs[id].pc.Appended?
  {
    var tx := s.txs[id];
    s.(db := Write(s.db, tx.a, tx.pc.status, tx.pc.available), log := s.log + [IssueOp(tx.a)])
  }

  /** Every redeem call ends in one reply. */
  function Say(s: State, id: nat, reply: Reply): State
    requires id in s.calls
  {
    var c := s.calls[id];
    s.(calls := Without(s.calls, id), answers := s.answers + [Answer(c.code, c.userId, c.bornAt, reply)])
  }

  function FindCode(cs: seq<Coupon>, code: string): (r: Option<nat>)
    ensures r.Some? ==> r.value < |cs| && cs[r.value].code == code
    ensures r.None? ==> !HasCode(cs, code)
  {
    if cs == [] then None
    else if cs[|cs| - 1].code == code then Some(|cs| - 1)
    else FindCode(cs[..|cs| - 1], code)
  }

  /** findByCode and the checks that follow it, in their order. */
  function ReadCoupon(s: State, id: nat): State
    requires id in s.calls
  {
    var c := s.calls[id];
    var row := FindCode(s.db.coupons, c.code);
    if row.None? then Say(s, id, NotFound)
    else
      var coupon := s.db.coupons[row.value];
      if coupon.userId != c.userId then Say(s, id, NotFound)
      else if coupon.usedAt.Some? then Say(s, id, Replayed(coupon.usedAt.value))
      else if !coupon.status.Success? then Say(s, id, InvalidState)
      else s.(calls := s.calls[id := c.(pc := Read(row.value, coupon.version))])
  }

  /** The guarded UPDATE: it looks at the latest row, not at the one that was read. */
  function UpdateCoupon(s: State, id: nat, now: int): State
    requires id in s.calls && s.calls[id].pc.Read?
  {
    var c := s.calls[id];
    if c.pc.row < |s.db.coupons| && s.db.coupons[c.pc.row].version == c.pc.version
    then s.(calls := s.calls[id := c.(pc := Updated(c.pc.row, c.pc.version, now))])
    else Say(s, id, RaceRetry)
  }

  function CommitCoupon(s: State, id: nat, heard: bool): State
    requires id in s.calls && s.calls[id].pc.Updated?
  {
    var pc := s.calls[id].pc;
    Say(s, id, if heard then Redeemed(pc.now) else Unheard(pc.now))
    .(db := s.db.(coupons := MarkUsed(s.db.coupons, pc.row, pc.version, pc.now)),
      log := s.log + [RedeemOp(pc.row, pc.version, pc.now)])
  }

  function Send(s: State, outcome: SendOutcome): State
    requires CanSend(s)
  {
    var i := s.poller.todo[0];
    s.(topic := if outcome.ErrorNotSent? then s.topic else s.topic + [s.db.outbox[i].payload],
       poller := Polling(s.poller.todo[1..], if outcome.Sent? then s.poller.sent + {i} else s.poller.sent))
  }

  function IssueNext(s: State, id: nat, step: IssueStep): State
    requires CanIssue(s, id, step)
  {
    match step
    case Begin(a) => s.(txs := s.txs[id := Tx(a, Begun)])
    case ExistsCheck => Goto(s, id, if HasKey(s.db.coupons, AttemptKey(s.txs[id].a)) then Short else Fresh)
    case EventCheck =>
      var a := s.txs[id].a;
      if a.req.eventId !in s.events then End(s, id)
      else if !s.events[a.req.eventId].IsActive(a.now) then Goto(s, id, Insert(Failed, 0))
      else Goto(s, id, WantStock)
    case LockStock =>
      var k := AttemptStockKey(s.txs[id].a);
      if k !in s.db.stock then End(s, id) else Goto(s, id, Locked(s.db.stock[k].available))
    case Decrement =>
      var n := s.txs[id].pc.available;
      Goto(s, id, Insert(if n <= 0 then SoldOut else Success, n))
    case InsertCode =>
      var tx := s.txs[id];
      if HasCode(s.db.coupons, CodeFor(tx.a, tx.pc.status)) then End(s, id)
      else Goto(s, id, Coded(tx.pc.status, tx.pc.available))
    case InsertKey =>
      var tx := s.txs[id];
      if HasKey(s.db.coupons, AttemptKey(tx.a)) then End(s, id)
      else Goto(s, id, Inserted(tx.pc.status, tx.pc.available))
    case AppendOutbox => Goto(s, id, Appended(s.txs[id].pc.status, s.txs[id].pc.available))
    case Commit =>
      if s.txs[id].pc.Short? then End(s, id).(log := s.log + [IssueOp(s.txs[id].a)])
      else if s.txs[id].pc.status.Failed? then End(CommitWrites(s, id), id)
      else Goto(CommitWrites(s, id), id, PostRead)
    case CommitThenCrash =>
      End(CommitWrites(s, id), id).(skipped := s.skipped + {AttemptStockKey(s.txs[id].a)})
    case Abort => End(s, id)
    case ReadStock =>
      var k := AttemptStockKey(s.txs[id].a);
      if k in s.db.stock && s.db.stock[k].available == 0 then Goto(s, id, PostSet) else End(s, id)
    case SetCache => End(s, id).(cache := s.cache + {AttemptStockKey(s.txs[id].a)})
    case SkipPost => End(s, id).(skipped := s.skipped + {AttemptStockKey(s.txs[id].a)})
  }

  function CallNext(s: State, id: nat, step: CallStep): State
    requires CanCall(s, id, step)
  {
    match step
    case CallBegin(code, userId) => s.(calls := s.calls[id := Call(code, userId, |s.answers|, Asked)])
    case CallRead => ReadCoupon(s, id)
    case CallUpdate(now) => UpdateCoupon(s, id, now)
    case CallCommit(heard) => CommitCoupon(s, id, heard)
    case CallAbort => Say(s, id, Broken)
  }

  function PollNext(s: State, step: PollStep): State
    requires CanPoll(s, step)
  {
    match step
    case PollStart(ids) => s.(poller := Polling(ids, {}))
    case PollSend(outcome) => Send(s, outcome)
    case PollMark =>
      s.(db := s.db.(outbox := MarkPublished(s.db.outbox, s.poller.sent)),
         log := s.log + [MarkOp(s.poller.sent)], poller := Idle)
    case PollCrash => s.(poller := Idle)
  }

  function Apply(s: State, step: Step): State
    requires Enabled(s, step)
  {
    match step
    case Issuing(id, st) => IssueNext(s, id, st)
    case Redeeming(id, st) => CallNext(s, id, st)
    case Relaying(st) => PollNext(s, st)
  }

  /** A run: every step is taken in a state that allows it. */
  ghost predicate Runs(s: State, steps: seq<Step>)
    decreases steps
  {
    steps == [] || (Enabled(s, steps[0]) && Runs(Apply(s, steps[0]), steps[1..]))
  }

  ghost function After(s: State, steps: seq<Step>): State
    requires Runs(s, steps)
    decreases steps
  {
    if steps == [] then s else After(Apply(s, steps[0]), steps[1..])
  }

  // ---------------------------------------------------------------- invariants

  /** The stock decision a transaction carries is still the one the committed tables give. */
  predicate StillDecided(events: map<int, Event>, db: Db, tx: Tx)
    requires tx.pc.Insert? || HoldsCode(tx)
  {
    && Decide(events, db.stock, tx.a) == Decided(tx.pc.status)
    && (tx.pc.status.Success? ==> tx.pc.available == db.stock[AttemptStockKey(tx.a)].available)
  }

  ghost predicate TxOk(events: map<int, Event>, db: Db, tx: Tx) {
    && ValidRequest(tx.a.req)
    && match tx.pc
       case Begun => true
       case Short => HasKey(db.coupons, AttemptKey(tx.a))
       case Fresh => true
       case WantStock => tx.a.req.eventId in events && events[tx.a.req.eventId].IsActive(tx.a.now)
       case Locked(n) =>
         && tx.a.req.eventId in events && events[tx.a.req.eventId].IsActive(tx.a.now)
         && AttemptStockKey(tx.a) in db.stock && n == db.stock[AttemptStockKey(tx.a)].available
       case Insert(status, _) => StillDecided(events, db, tx)
       case Coded(status, _) => StillDecided(events, db, tx) && !HasCode(db.coupons, CodeFor(tx.a, status))
       case Inserted(status, _) => StillDecided(events, db, tx) && RowAbsent(db, tx.a, status)
       case Appended(status, _) => StillDecided(events, db, tx) && RowAbsent(db, tx.a, status)
       case PostRead => AttemptStockKey(tx.a) in db.stock
       case PostSet => AttemptStockKey(tx.a) in db.stock && db.stock[AttemptStockKey(tx.a)].available == 0
  }

  predicate RowAbsent(db: Db, a: Attempt, status: CouponStatus) {
    !HasKey(db.coupons, AttemptKey(a)) && !HasCode(db.coupons, CodeFor(a, status))
  }

  ghost predicate TxsOk(events: map<int, Event>, db: Db, txs: map<nat, Tx>) {
    forall i | i in txs :: TxOk(events, db, txs[i])
  }

  ghost predicate Compatible(t: Tx, u: Tx) {
    && (HoldsStock(t) && HoldsStock(u) ==> AttemptStockKey(t.a) != AttemptStockKey(u.a))
    && (HoldsCode(t) && HoldsCode(u) ==> CodeFor(t.a, t.pc.status) != CodeFor(u.a, u.pc.status))
    && (HoldsRow(t) && HoldsRow(u) ==> AttemptKey(t.a) != AttemptKey(u.a))
  }

  ghost predicate Exclusive(txs: map<nat, Tx>) {
    forall i, j | i in txs && j in txs && i != j :: Compatible(txs[i], txs[j])
  }

  /** The committed tables are the committed operations run one after the other, in commit order. */
  ghost predicate Serial(s: State) {
    s.db == Replay(s.events, s.db0, s.log)
  }

  ghost predicate HasPayload(outbox: seq<OutboxRow>, m: ResultPayload) {
    exists i | 0 <= i < |outbox| :: outbox[i].payload == m
  }

  /** What is marked published is on the topic, and the topic holds nothing but outbox payloads. */
  ghost predicate ChainOk(outbox: seq<OutboxRow>, topic: seq<ResultPayload>, poller: Poller) {
    && (forall i | 0 <= i < |outbox| && outbox[i].published :: outbox[i].payload in topic)
    && (forall m | m in topic :: HasPayload(outbox, m))
    && (poller.Polling? ==>
          && (forall i | i in poller.sent :: i < |outbox| && outbox[i].payload in topic)
          && forall i | 0 <= i < |poller.todo| :: poller.todo[i] < |outbox|)
  }

  ghost predicate PostPending(txs: map<nat, Tx>, k: StockKey) {
    exists i | i in txs :: Finishing(txs[i].pc) && AttemptStockKey(txs[i].a) == k
  }

  ghost predicate CacheSound(stock: map<StockKey, Stock>, cache: set<StockKey>) {
    forall k | k in cache :: k in stock && stock[k].available == 0
  }

  ghost predicate CacheComplete(stock: map<StockKey, Stock>, cache: set<StockKey>, skipped: set<StockKey>,
                                txs: map<nat, Tx>)
  {
    forall k | k in stock && stock[k].available == 0 < stock[k].total ::
      k in cache || k in skipped || PostPending(txs, k)
  }

  predicate Wins(r: Reply) {
    r.Redeemed? || r.Unheard?
  }

  predicate TellsUse(r: Reply) {
    r.Redeemed? || r.Unheard? || r.Replayed?
  }

  predicate UsedBy(cs: seq<Coupon>, code: string, userId: int) {
    exists i | 0 <= i < |cs| :: cs[i].code == code && cs[i].userId == userId && cs[i].status.Used?
  }

  predicate UsedByAt(cs: seq<Coupon>, code: string, userId: int, at: int) {
    exists i | 0 <= i < |cs| :: cs[i].code == code && cs[i].userId == userId && cs[i].usedAt == Some(at)
  }

  /** A reply that tells a use time tells the owner the row's; a race is lost only to a use by the owner. */
  ghost predicate AnswerOk(cs: seq<Coupon>, a: Answer) {
    && (TellsUse(a.reply) ==> UsedByAt(cs, a.code, a.userId, a.reply.at))
    && (a.reply.RaceRetry? ==> UsedBy(cs, a.code, a.userId))
  }

  ghost predicate AnswersOk(cs: seq<Coupon>, answers: seq<Answer>) {
    forall i | 0 <= i < |answers| :: answers[i].bornAt <= i && AnswerOk(cs, answers[i])
  }

  ghost predicate OneWinner(answers: seq<Answer>) {
    forall i, j | 0 <= i < j < |answers| && Wins(answers[i].reply) && Wins(answers[j].reply) ::
      answers[i].code != answers[j].code
  }

  ghost predicate HasWinner(answers: seq<Answer>, code: string) {
    exists i | 0 <= i < |answers| :: Wins(answers[i].reply) && answers[i].code == code
  }

  ghost predicate UsedHasWinner(cs: seq<Coupon>, answers: seq<Answer>) {
    forall r | 0 <= r < |cs| && cs[r].status.Used? :: HasWinner(answers, cs[r].code)
  }

  /** After this reply its caller knows the coupon to be used. */
  predicate Settles(r: Reply) {
    r.RaceRetry? || TellsUse(r)
  }

  predicate SameCaller(a: Answer, code: string, userId: int) {
    a.code == code && a.userId == userId
  }

  /**
   * In real time: a call that began after its caller was told of the use, was granted it or lost a
   * race for it, is told of the use (or the connection breaks).
   */
  ghost predicate SettledReplays(answers: seq<Answer>) {
    forall i, j | 0 <= i < j < |answers| && Settles(answers[i].reply)
                  && SameCaller(answers[i], answers[j].code, answers[j].userId) && i < answers[j].bornAt ::
      answers[j].reply.Replayed? || answers[j].reply.Broken?
  }

  /** No reply before the call began had settled the code for its caller. */
  ghost predicate UnsettledAtBirth(answers: seq<Answer>, c: Call) {
    forall i | 0 <= i < |answers| && i < c.bornAt && SameCaller(answers[i], c.code, c.userId) ::
      !Settles(answers[i].reply)
  }

  ghost predicate CallOk(cs: seq<Coupon>, answers: seq<Answer>, c: Call) {
    && c.bornAt <= |answers|
    && (!c.pc.Asked? ==>
          && c.pc.row < |cs| && c.pc.version == 0
          && cs[c.pc.row].code == c.code && cs[c.pc.row].userId == c.userId && Granted(cs[c.pc.row])
          && UnsettledAtBirth(answers, c))
    && (c.pc.Updated? ==> cs[c.pc.row].status.Success?)
  }

  /** At most one call holds the row of a coupon it has updated. */
  ghost predicate Apart(c: Call, d: Call) {
    c.pc.Updated? && d.pc.Updated? ==> c.pc.row != d.pc.row
  }

  ghost predicate CallsOk(cs: seq<Coupon>, answers: seq<Answer>, calls: map<nat, Call>) {
    && (forall i | i in calls :: CallOk(cs, answers, calls[i]))
    && forall i, j | i in calls && j in calls && i != j :: Apart(calls[i], calls[j])
  }

  ghost predicate RedeemOk(cs: seq<Coupon>, answers: seq<Answer>, calls: map<nat, Call>) {
    && CallsOk(cs, answers, calls)
    && AnswersOk(cs, answers)
    && OneWinner(answers)
    && UsedHasWinner(cs, answers)
    && SettledReplays(answers)
  }

  ghost predicate Inv(s: State) {
    && TablesOk(s.db)
    && Serial(s)
    && TxsOk(s.events, s.db, s.txs)
    && Exclusive(s.txs)
    && ChainOk(s.db.outbox, s.topic, s.poller)
    && CacheSound(s.db.stock, s.cache)
    && CacheComplete(s.db.stock, s.cache, s.skipped, s.txs)
    && RedeemOk(s.db.coupons, s.answers, s.calls)
  }
}
