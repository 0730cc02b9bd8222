/** The night limit among interleaved workers: a large payment is let through by day only,
    a token's lifetime and the reading slack after dusk included, as long as no worker
    reads a clock that is behind what is already stored. */
module Hours {
  import opened Actions
  import opened Policy
  import opened Machine
  import opened Bank
  import opened Plane
  import opened Audit
  import opened Intents
  import opened Scripts
  import opened Workers
  import S = Serial

  // ---------------------------------------------------------------- the clock

  /** Two readings of one operation are at most `slack` apart, and no token in the store
      was issued after the first. */
  ghost predicate Punctual(s: Shared, m: Tick, slack: int) {
    m.Begin? && Possible(s, m) && S.ReadsClock(m.op) ==>
      && m.op.t1 <= m.op.t2 <= m.op.t1 + slack
      && forall id | id in s.d.rows && s.d.rows[id].issuedAt.Some? :: s.d.rows[id].issuedAt.value <= m.op.t1
  }

  ghost predicate Punctually(cfg: Config, slack: int, ticks: seq<Tick>) {
    ticks != [] ==>
      var before := ticks[..|ticks| - 1];
      Punctually(cfg, slack, before) && Punctual(Interleave(cfg, before), ticks[|ticks| - 1], slack)
  }

  lemma {:induction false} PunctualBefore(cfg: Config, slack: int, ticks: seq<Tick>, k: nat)
    requires Punctually(cfg, slack, ticks) && k < |ticks|
    ensures Punctually(cfg, slack, ticks[..k]) && Punctual(Interleave(cfg, ticks[..k]), ticks[k], slack)
    decreases |ticks|
  {
    var before := ticks[..|ticks| - 1];
    if k < |before| {
      assert before[..k] == ticks[..k];
      PunctualBefore(cfg, slack, before, k);
    }
  }

  // ---------------------------------------------------------------- rows whose token was issued by day

  ghost predicate ByDay(slack: int, r: Row) {
    r.digest.Some? && r.issuedAt.Some? && r.digest.value.action.amount > NIGHT_LIMIT ==>
      Daylight(r.issuedAt.value, slack)
  }

  ghost predicate PutsByDay(slack: int, ws: seq<Write>) {
    forall w | w in ws && w.Put? :: ByDay(slack, w.row)
  }

  ghost predicate JobByDay(slack: int, job: Job) {
    match job
    case Do(w) => w.Put? ==> ByDay(slack, w.row)
    case Call(r, _) => ByDay(slack, r)
    case Check(r, _) => ByDay(slack, r)
    case Debit(r, _) => ByDay(slack, r)
    case Reread(r, _) => ByDay(slack, r)
    case AskBook(r) => ByDay(slack, r)
  }

  ghost predicate PlanByDay(slack: int, todo: seq<Job>) {
    forall job | job in todo :: JobByDay(slack, job)
  }

  ghost predicate AllByDay(slack: int, s: Shared) {
    && (forall id | id in s.d.rows :: ByDay(slack, s.d.rows[id]))
    && (forall w | w in s.workers :: PlanByDay(slack, s.workers[w].todo))
  }

  lemma DosByDay(slack: int, ws: seq<Write>)
    requires PutsByDay(slack, ws)
    ensures PlanByDay(slack, Dos(ws))
  {
  }

  lemma LikeByDay(slack: int, ws: seq<Write>, r: Row)
    requires SavesLike(ws, r) && ByDay(slack, r)
    ensures PutsByDay(slack, ws)
  {
  }

  // ---------------------------------------------------------------- every script

  ghost predicate Readings(slack: int, t1: Instant, t2: Instant) {
    S.SlackOk(Some(slack)) && t1 <= t2 <= t1 + slack
  }

  lemma IssueByDay(cfg: Config, r: Row, memory: BankMemory, slack: int, token: Id, t1: Instant, t2: Instant)
    requires r.state == Validated && Readings(slack, t1, t2)
    requires VerdictOn(r, memory, t1).decision == RequireConfirmation
    ensures PutsByDay(slack, Move(Issued(cfg, r, token, t2), AwaitConfirmation))
  {
    IssuedByDaylight(Env(cfg, Steady(slack, t2), None), r, memory, t1, t2);
    hide Daylight;
  }

  lemma DecideByDay(cfg: Config, r: Row, memory: BankMemory, slack: int, token: Id, t1: Instant, t2: Instant)
    requires r.state == Validated && ByDay(slack, r) && Readings(slack, t1, t2)
    ensures PutsByDay(slack, Decide(cfg, r, memory, token, t1, t2).0)
  {
    hide SavesLike, ByDay, VerdictOn, DecideHead, ApplyVerdict;
    var tail := ApplyVerdict(cfg, r, VerdictOn(r, memory, t1), token, t2).0;
    VerdictTail(cfg, r, memory, token, t1, t2);
    LikeByDay(slack, DecideHead(r, memory, t1), r);
    if VerdictOn(r, memory, t1).decision == RequireConfirmation {
      IssueByDay(cfg, r, memory, slack, token, t1, t2);
    } else {
      LikeByDay(slack, tail, r);
    }
  }

  lemma ProposeByDay(cfg: Config, memory: BankMemory, op: Op, slack: int)
    requires op.ProposeOp? && Readings(slack, op.t1, op.t2)
    ensures PutsByDay(slack, Propose(cfg, memory, op.ctx, op.proposed, op.text, op.id, op.token, op.t1, op.t2).script)
  {
    hide Decide, Daylight, FindContacts, MissingPreconditions;
    var matches := FindContacts(cfg.contacts, op.proposed.recipient);
    if |matches| == 1 {
      var validated := Moved(Proposed(op.ctx, op.proposed, op.id, matches[0].id), Validate);
      DecideByDay(cfg, validated, memory, slack, op.token, op.t1, op.t2);
    }
  }

  lemma StepUpByDay(cfg: Config, r: Row, memory: BankMemory, slack: int, token: Id, t1: Instant, t2: Instant)
    requires r.state == AwaitingStepUp && ByDay(slack, r) && Readings(slack, t1, t2)
    ensures PutsByDay(slack, StepUpBody(cfg, r, memory, token, t1, t2).0)
  {
    hide Decide, Daylight;
    DecideByDay(cfg, Moved(Strengthened(r), StepUp), memory, slack, token, t1, t2);
  }

  lemma {:induction false} SweepByDay(slack: int, order: seq<Id>, rows: map<Id, Row>)
    requires forall id | id in rows :: ByDay(slack, rows[id])
    ensures PutsByDay(slack, SweepScript(order, rows))
  {
    hide Daylight;
    if order != [] {
      SweepByDay(slack, order[1..], rows);
    }
  }

  lemma ConfirmByDay(cfg: Config, d: Durable, memory: BankMemory, slack: int, ctx: Context, r: Row, token: Id,
                     t1: Instant, t2: Instant, payment: Id)
    requires ByDay(slack, r) && !Willing(cfg, r, t1)
    ensures PutsByDay(slack, ConfirmRow(cfg, d, memory, ctx, r, token, t1, t2, payment).script)
  {
    hide Daylight;
  }

  lemma ConsentByDay(slack: int, r: Row, ctx: Context, token: Id, at: Instant)
    requires r.state == AwaitingConfirmation && ByDay(slack, r)
    ensures PutsByDay(slack, ConsentScript(r, ctx, token, at)) && ByDay(slack, SubmittedRow(r, ctx, at))
  {
    hide Daylight;
  }

  lemma ScriptByDay(cfg: Config, s: Shared, op: Op, seen: BankMemory, slack: int)
    requires AllByDay(slack, s) && Sound(cfg, s) && !Accepted(cfg, s.d, op)
    requires S.ReadsClock(op) ==> Readings(slack, op.t1, op.t2)
    ensures PutsByDay(slack, EffectOf(cfg, s.d, seen, op).script)
  {
    hide Propose, StepUpBody, ConfirmRow, ReconcileScript, SweepScript, StatusOf, ByDay, Moved, Move;
    match op
    case ProposeOp(_, _, _, _, _, _, _) => ProposeByDay(cfg, seen, op, slack);
    case StepUpOp(ctx, i, token, t1, t2) =>
      if i in s.d.rows && s.d.rows[i].state == AwaitingStepUp {
        StepUpByDay(cfg, s.d.rows[i], seen, slack, token, t1, t2);
      }
    case ConfirmOp(ctx, token, t1, t2, payment) =>
      if OwnedByToken(s.d, ctx, token).Some? {
        FoundByToken(cfg, s, token);
        ConfirmByDay(cfg, s.d, seen, slack, ctx, ByToken(s.d, token).value, token, t1, t2, payment);
      }
    case CancelOp(ctx, token) => CancelByDay(cfg, s, seen, slack, ctx, token);
    case ReconcileOp(ctx, i) =>
      if i in s.d.rows && s.d.rows[i].state == Unknown {
        ReconcileByDay(slack, s.d.rows[i], Lookup(s.d.book, s.d.rows[i].id));
      }
    case SweepOp => SweepByDay(slack, s.d.order, s.d.rows);
    case _ =>
  }

  lemma CancelByDay(cfg: Config, s: Shared, memory: BankMemory, slack: int, ctx: Context, token: Id)
    requires AllByDay(slack, s) && Sound(cfg, s)
    ensures PutsByDay(slack, CancelPix(cfg, s.d, memory, ctx, token).script)
  {
    hide Daylight;
    if OwnedByToken(s.d, ctx, token).Some? {
      FoundByToken(cfg, s, token);
    }
  }

  lemma ReconcileByDay(slack: int, r: Row, receipt: Option<Receipt>)
    requires r.state == Unknown && ByDay(slack, r)
    ensures PutsByDay(slack, ReconcileScript(r, receipt))
  {
    hide Daylight;
  }

  lemma SettleByDay(slack: int, r: InFlight, answer: Answer)
    requires ByDay(slack, r)
    ensures PlanByDay(slack, Dos(SettleScript(r, answer)))
  {
    hide SettleScript, SavesLike, ByDay;
    SettleSavesLike(r, answer);
    LikeByDay(slack, SettleScript(r, answer), r);
    DosByDay(slack, SettleScript(r, answer));
  }

  // ---------------------------------------------------------------- every tick

  lemma BeginByDay(cfg: Config, s: Shared, m: Tick, slack: int)
    requires AllByDay(slack, s) && Sound(cfg, s) && S.SlackOk(Some(slack))
    requires m.Begin? && Possible(s, m) && Punctual(s, m, slack)
    ensures PlanByDay(slack, Plan(cfg, s.d, m.op, m.seen))
  {
    hide ByDay, Sound, EffectOf, ConsentScript, SubmittedRow;
    var op := m.op;
    if Accepted(cfg, s.d, op) {
      FoundByToken(cfg, s, op.token);
      var r := ByToken(s.d, op.token).value;
      ConsentByDay(slack, r, op.ctx, op.token, op.t2);
      DosByDay(slack, ConsentScript(r, op.ctx, op.token, op.t2));
    } else if op.ReconcileOp? && OwnedByCustomer(s.d, op.ctx, op.id).Some? && s.d.rows[op.id].state == Unknown {
    } else {
      ScriptByDay(cfg, s, op, m.seen, slack);
      DosByDay(slack, EffectOf(cfg, s.d, m.seen, op).script);
    }
  }

  lemma TurnByDay(cfg: Config, s: Shared, worker: nat, slack: int)
    requires AllByDay(slack, s) && worker in s.workers && s.workers[worker].todo != []
    ensures PlanByDay(slack, DoJob(cfg, s, worker).workers[worker].todo)
  {
    hide ByDay, SettleScript, ReconcileScript, Refusal, Apply;
    var todo := s.workers[worker].todo;
    assert JobByDay(slack, todo[0]);
    match todo[0]
    case Do(_) => assert forall job | job in todo[1..] :: job in todo;
    case Call(r, _) =>
      if r.id in s.d.book {
        SettleByDay(slack, r, Paid(s.d.book[r.id]));
      }
    case Check(r, _) =>
      var refusal := Refusal(cfg.contacts, MemoryIn(cfg, s, s.workers[worker].bank), r.action);
      if refusal.Some? {
        SettleByDay(slack, r, Refused(refusal.value));
      }
    case Debit(_, _) =>
    case Reread(r, mine) =>
      SettleByDay(slack, r, NoAnswer);
      SettleByDay(slack, r, Paid(if r.id in s.d.book then s.d.book[r.id] else mine));
    case AskBook(r) =>
      ReconcileByDay(slack, r, Lookup(s.d.book, r.id));
      DosByDay(slack, ReconcileScript(r, Lookup(s.d.book, r.id)));
  }

  lemma TurnKeepsByDay(cfg: Config, s: Shared, worker: nat, slack: int)
    requires AllByDay(slack, s) && worker in s.workers && s.workers[worker].todo != []
    ensures AllByDay(slack, DoJob(cfg, s, worker))
  {
    hide ByDay, DoJob, PlanByDay;
    TurnByDay(cfg, s, worker, slack);
    TurnElsewhere(cfg, s, worker);
    TurnWrites(cfg, s, worker);
    FirstIsByDay(slack, s.workers[worker].todo);
  }

  lemma FirstIsByDay(slack: int, todo: seq<Job>)
    requires PlanByDay(slack, todo) && todo != []
    ensures JobByDay(slack, todo[0])
  {
  }

  lemma {:induction false} TokensAreIssuedByDay(cfg: Config, slack: int, ticks: seq<Tick>)
    requires S.SlackOk(Some(slack)) && Punctually(cfg, slack, ticks)
    ensures AllByDay(slack, Interleave(cfg, ticks))
    decreases |ticks|
  {
    if ticks != [] {
      var before, m := ticks[..|ticks| - 1], ticks[|ticks| - 1];
      var s := Interleave(cfg, before);
      TokensAreIssuedByDay(cfg, slack, before);
      EveryInterleavingIsSound(cfg, before);
      hide Interleave, Sound, Daylight, Plan, DoJob;
      if Possible(s, m) {
        match m
        case Begin(_, _, _, _) => BeginByDay(cfg, s, m, slack);
        case Turn(worker) => TurnKeepsByDay(cfg, s, worker, slack);
        case _ =>
      }
    }
  }

  // ---------------------------------------------------------------- nothing large at night

  ghost predicate BegunByDay(op: Op, slack: int) {
    op.ConfirmOp? && DAY_START <= TimeOfDay(op.t1) < DAY_END + CONFIRMATION_TTL + slack
  }

  /** In every interleaving on a punctual clock, a booked row above R$ 1 000 comes from a
      confirmation some worker began, of a consent to that amount and recipient, at a
      Sao Paulo time in [06:00, 20:05 + slack). */
  lemma NothingLargeIsPaidAtNight(cfg: Config, slack: int, ticks: seq<Tick>, id: Id)
    requires S.SlackOk(Some(slack)) && Punctually(cfg, slack, ticks)
    requires id in Interleave(cfg, ticks).d.book && Interleave(cfg, ticks).d.book[id].amount > NIGHT_LIMIT
    ensures exists n: nat, given: Consent :: PaidUnder(cfg, ticks, id, n, given) && BegunByDay(ticks[n].op, slack)
  {
    hide Interleave, Trail, LetThroughAt, TimeOfDay, Punctually;
    PaidWasLetThrough(cfg, ticks, id);
    var n: nat, given: Consent :| PaidUnder(cfg, ticks, id, n, given);
    AcceptedByDay(cfg, slack, ticks, n, id, given);
  }

  lemma LateDay(slack: int, issuedAt: Instant, t: Instant)
    requires S.SlackOk(Some(slack)) && Daylight(issuedAt, slack) && issuedAt <= t <= issuedAt + CONFIRMATION_TTL
    ensures DAY_START <= TimeOfDay(t) < DAY_END + CONFIRMATION_TTL + slack
  {
    DaylightDrifts(issuedAt, t, slack, CONFIRMATION_TTL);
  }

  lemma AcceptedByDay(cfg: Config, slack: int, ticks: seq<Tick>, n: nat, id: Id, given: Consent)
    requires S.SlackOk(Some(slack)) && Punctually(cfg, slack, ticks)
    requires LetThroughAt(cfg, ticks, n, id, given) && given.action.amount > NIGHT_LIMIT
    ensures BegunByDay(ticks[n].op, slack)
  {
    hide Interleave, Sound, Daylight, Trail, AuditAt;
    var before, op := ticks[..n], ticks[n].op;
    var s := Interleave(cfg, before);
    PunctualBefore(cfg, slack, ticks, n);
    TokensAreIssuedByDay(cfg, slack, before);
    EveryInterleavingIsSound(cfg, before);
    FoundByToken(cfg, s, op.token);
    var r := ByToken(s.d, op.token).value;
    assert ByDay(slack, r);
    LateDay(slack, r.issuedAt.value, op.t1);
  }
}
