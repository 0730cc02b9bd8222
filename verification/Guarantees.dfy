/** What holds in every run of the serial system, said of the durable state itself. */
module Guarantees {
  import opened Actions
  import opened Policy
  import opened Machine
  import opened Plane
  import opened Audit
  import opened Intents
  import opened Scripts
  import opened Serial

  lemma GoodAt(cfg: Config, slack: Option<int>, steps: seq<Step>, id: Id)
    requires SlackOk(slack) && ValidRun(cfg, slack, steps)
    ensures Inv(cfg, slack, Run(cfg, steps))
    ensures Good(EnvAt(cfg, slack, Run(cfg, steps).now), id, ViewOf(cfg.secret, Run(cfg, steps).d, id))
  {
    EveryRunIsGood(cfg, slack, steps);
  }

  // ---------------------------------------------------------------- the store and the bank's book

  /** What is booked is SUBMITTED, UNKNOWN or COMPLETED; what is COMPLETED is booked, with
      that very receipt; only what is COMPLETED carries a receipt. */
  predicate StoredAsBooked(d: Durable, id: Id) {
    && (id in d.book ==> id in d.rows && d.rows[id].state in {Submitted, Unknown, Completed})
    && (id in d.rows && d.rows[id].state == Completed ==> id in d.book && d.rows[id].receipt == Some(d.book[id]))
    && (id in d.rows ==> (d.rows[id].receipt.Some? <==> d.rows[id].state == Completed))
  }

  /** Stored state and the bank's book agree, whatever crashed wherever; every state but
      those three, FAILED and AUTHORIZED included, was never paid. */
  lemma StateAgreesWithBook(cfg: Config, steps: seq<Step>, id: Id)
    requires ValidRun(cfg, None, steps)
    ensures StoredAsBooked(Run(cfg, steps).d, id)
  {
    GoodAt(cfg, None, steps, id);
  }

  /** The reply describes the row it leaves in the store. */
  ghost predicate Describes(reply: Reply, d: Durable) {
    reply.Outcome? && reply.status.Settled? ==>
      && reply.intent.Some? && reply.intent.value in d.rows && reply.data.Summary?
      && reply.status.state == reply.data.state == d.rows[reply.intent.value].state
      && reply.data.receipt == d.rows[reply.intent.value].receipt
  }

  lemma StatusDescribes(cfg: Config, d: Durable, r: Row)
    requires r.id in d.rows && d.rows[r.id] == r
    ensures forall refused :: Describes(StatusOf(cfg, r, refused), d)
  {
  }

  /** Running a script that takes an intent's view to `v'` stores the row of `v'`. */
  lemma StoredAfter(env: Env, d: Durable, id: Id, ws: seq<Write>, v': View)
    requires Takes(env, id, ViewOf(env.cfg.secret, d, id), ws, v') && v'.row.Some?
    ensures id in ApplyAll(d, ws).rows && ApplyAll(d, ws).rows[id] == v'.row.value
  {
    RunIsLocal(env.cfg.secret, d, ws, id);
  }

  lemma AcceptedDescribes(cfg: Config, w: World, op: Op)
    requires Inv(cfg, None, w) && Accepted(cfg, w.d, op)
    ensures Describes(EffectIn(cfg, w, op).reply, ApplyAll(w.d, EffectIn(cfg, w, op).script))
  {
    hide Inv, ApplyAll, ConsentScript, ExecuteScript, Good;
    var r := ByToken(w.d, op.token).value;
    FoundRow(cfg, None, w, op.token);
    GoodInOp(cfg, None, w, op, r.id);
    var env, v, memory := OpEnv(cfg, None, w, op), ViewOf(cfg.secret, w.d, r.id), MemoryOf(cfg, w, PrincipalOn(op));
    ExecuteSafe(env, v, r, op.ctx, op.token, op.t2, memory, op.payment);
    var v' := ExecutedV(env, v, r, op.ctx, op.t2, memory, op.payment);
    StoredAfter(env, w.d, r.id, EffectIn(cfg, w, op).script, v');
    StatusDescribes(cfg, ApplyAll(w.d, EffectIn(cfg, w, op).script), v'.row.value);
  }

  lemma ConfirmDescribes(cfg: Config, w: World, op: Op)
    requires Inv(cfg, None, w) && op.ConfirmOp?
    ensures Describes(EffectIn(cfg, w, op).reply, ApplyAll(w.d, EffectIn(cfg, w, op).script))
  {
    hide Inv, ConsentScript, ExecuteScript, Good;
    if Accepted(cfg, w.d, op) {
      AcceptedDescribes(cfg, w, op);
    } else if OwnedByToken(w.d, op.ctx, op.token).Some? {
      var r := ByToken(w.d, op.token).value;
      FoundRow(cfg, None, w, op.token);
      if r.state == AwaitingConfirmation && Expired(r, op.t1) {
        GoodInOp(cfg, None, w, op, r.id);
        var env, v := OpEnv(cfg, None, w, op), ViewOf(cfg.secret, w.d, r.id);
        ExpireSafe(env, v, r, r.issuedAt.value);
        StoredAfter(env, w.d, r.id, EffectIn(cfg, w, op).script, Hopped(v, r, Cancel));
      }
    }
  }

  lemma CancelDescribes(cfg: Config, w: World, op: Op)
    requires Inv(cfg, None, w) && op.CancelOp?
    ensures Describes(EffectIn(cfg, w, op).reply, ApplyAll(w.d, EffectIn(cfg, w, op).script))
  {
    if OwnedByToken(w.d, op.ctx, op.token).Some? {
      var r := ByToken(w.d, op.token).value;
      FoundRow(cfg, None, w, op.token);
      if CanMove(r, Cancel) {
        GoodInOp(cfg, None, w, op, r.id);
        var env, v := OpEnv(cfg, None, w, op), ViewOf(cfg.secret, w.d, r.id);
        CancelSafe(env, v, r);
        StoredAfter(env, w.d, r.id, EffectIn(cfg, w, op).script, Hopped(v, r, Cancel));
      }
    }
  }

  lemma ReconcileDescribes(cfg: Config, w: World, op: Op)
    requires Inv(cfg, None, w) && op.ReconcileOp?
    ensures Describes(EffectIn(cfg, w, op).reply, ApplyAll(w.d, EffectIn(cfg, w, op).script))
  {
    GoodInOp(cfg, None, w, op, op.id);
    var found := OwnedByCustomer(w.d, op.ctx, op.id);
    if found.Some? {
      var r := found.value;
      if r.state == Unknown {
        var env, v := OpEnv(cfg, None, w, op), ViewOf(cfg.secret, w.d, op.id);
        ReconcileSafe(env, v, r);
        StoredAfter(env, w.d, op.id, EffectIn(cfg, w, op).script,
                    RunV(cfg.secret, op.id, v, EffectIn(cfg, w, op).script));
        StatusDescribes(cfg, ApplyAll(w.d, EffectIn(cfg, w, op).script), ReconciledRow(r, v.booked));
      } else {
        StatusDescribes(cfg, w.d, r);
      }
    }
  }

  lemma ReplyDescribes(cfg: Config, w: World, op: Op)
    requires Inv(cfg, None, w)
    ensures Describes(EffectIn(cfg, w, op).reply, ApplyAll(w.d, EffectIn(cfg, w, op).script))
  {
    hide Inv, ConfirmRow, ReconcileScript, SweepScript;
    match op
    case ConfirmOp(_, _, _, _, _) => ConfirmDescribes(cfg, w, op);
    case CancelOp(_, _) => CancelDescribes(cfg, w, op);
    case ReconcileOp(_, _) => ReconcileDescribes(cfg, w, op);
    case StatusOp(_, id) => GoodInOp(cfg, None, w, op, id);
    case _ =>
  }

  /** COMPLETED comes with the bank's own receipt for that intent, FAILED with none on
      file. */
  predicate TrueToBook(reply: Reply, book: map<Id, Receipt>) {
    reply.Outcome? ==>
      && (reply.status == Settled(Completed) ==>
            && reply.intent.Some? && reply.intent.value in book
            && reply.data.Summary? && reply.data.receipt == Some(book[reply.intent.value]))
      && (reply.status == Settled(Failed) ==> reply.intent.Some? && reply.intent.value !in book)
  }

  /** No reply of COMPLETED or FAILED is ever given against the book. */
  lemma RepliesAgreeWithBook(cfg: Config, steps: seq<Step>, op: Op)
    requires ValidRun(cfg, None, steps + [Done(op)])
    ensures TrueToBook(EffectIn(cfg, Run(cfg, steps), op).reply, Run(cfg, steps + [Done(op)]).d.book)
  {
    hide EffectIn, Inv, ApplyAll;
    var all := steps + [Done(op)];
    assert all[..|all| - 1] == steps;
    EveryRunIsGood(cfg, None, steps);
    ReplyDescribes(cfg, Run(cfg, steps), op);
    var reply := EffectIn(cfg, Run(cfg, steps), op).reply;
    if reply.Outcome? && reply.status.Settled? {
      StateAgreesWithBook(cfg, all, reply.intent.value);
    }
  }

  // ---------------------------------------------------------------- consent comes before money

  lemma {:induction false} OwnerIsStable(trail: seq<Entry>, k: nat)
    requires k <= |trail| && TrailOwner(trail[..k]).Some?
    ensures TrailOwner(trail) == TrailOwner(trail[..k])
    decreases |trail|
  {
    if k < |trail| {
      var before := trail[..|trail| - 1];
      assert before[..k] == trail[..k];
      OwnerIsStable(before, k);
      OwnerAppend(before, trail[|trail| - 1]);
      assert before + [trail[|trail| - 1]] == trail;
    } else {
      assert trail[..k] == trail;
    }
  }

  /** The trail holds, in this order: policy asking for confirmation, the issue of the
      consent's token against its action, that token confirmed at that instant for that
      action by `owner`, its authorization at an assurance that is enough for the amount,
      and an execution request. */
  ghost predicate ConsentTrail(secret: string, trail: seq<Entry>, owner: Principal, given: Consent,
                               i: nat, j: nat, k: nat, m: nat, l: nat) {
    && i < j < k < m < l < |trail|
    && Approves(trail[i])
    && Issues(trail[j], given.token, ActionDigest(given.action, secret))
    && Consents(trail[k], owner, given)
    && Authorizes(trail[m], given)
    && trail[l].ExecutionRequest?
  }

  /** Every payment in the book, in every run, even with stored actions rewritten behind
      the plane's back: its recipient and amount are those of the action the intent's one
      token was issued for, and the trail of that token's consent, at the instant the row
      records and by the intent's own customer and session, precedes it in the ledger. */
  lemma PaymentsWereConsented(cfg: Config, steps: seq<Step>, id: Id)
    requires ValidRun(cfg, None, steps) && id in Run(cfg, steps).d.book
    ensures var d := Run(cfg, steps).d;
      && id in d.rows && d.rows[id].digest.Some? && d.rows[id].digest.value.secret == cfg.secret
      && MatchesAction(d.book[id], d.rows[id].digest.value.action)
      && d.rows[id].token.Some? && d.rows[id].confirmedAt.Some?
      && exists i: nat, j: nat, k: nat, m: nat, l: nat ::
           ConsentTrail(cfg.secret, Trail(d.ledger, id), OwnerOf(d.rows[id]), ConsentIn(d.rows[id]), i, j, k, m, l)
  {
    GoodAt(cfg, None, steps, id);
    var d := Run(cfg, steps).d;
    var trail, given := Trail(d.ledger, id), ConsentIn(d.rows[id]);
    RequestedMeans(cfg.secret, trail, given);
    var i: nat, j: nat, k: nat, m: nat, l: nat :| RequestedAt(cfg.secret, trail, given, i, j, k, m, l);
    OwnerIsFirstRequest(cfg.secret, trail);
    OwnerIsStable(trail, k);
    assert ConsentTrail(cfg.secret, trail, OwnerOf(d.rows[id]), given, i, j, k, m, l);
  }

  lemma {:induction false} FiledBy(d: Durable, ws: seq<Write>, id: Id)
    requires id !in d.book && id in ApplyAll(d, ws).book
    ensures exists x | x in ws :: x.File? && x.id == id
    decreases |ws|
  {
    if id in Apply(d, ws[0]).book {
      assert ws[0] in ws;
    } else {
      FiledBy(Apply(d, ws[0]), ws[1..], id);
      var x :| x in ws[1..] && x.File? && x.id == id;
      assert x in ws;
    }
  }

  lemma {:induction false} SweepFilesNothing(order: seq<Id>, rows: map<Id, Row>)
    ensures forall x | x in SweepScript(order, rows) :: !x.File?
  {
    if order != [] {
      SweepFilesNothing(order[1..], rows);
    }
  }

  lemma OnlyConfirmFiles(cfg: Config, w: World, op: Op, x: Write)
    requires Inv(cfg, None, w) && x in EffectIn(cfg, w, op).script && x.File?
    ensures Accepted(cfg, w.d, op) && x.id == ByToken(w.d, op.token).value.id
  {
    if op.SweepOp? {
      SweepFilesNothing(w.d.order, w.d.rows);
    } else {
      OneSubject(cfg, None, w, op);
    }
  }

  /** Money moves in one kind of step only: a confirmation, within the token's lifetime
      by the clock reading that let it through, from the principal the token was given
      to, of an action that still has the digest the token was issued against. */
  lemma MoneyMovesOnLiveConsentOnly(cfg: Config, steps: seq<Step>, s: Step, id: Id)
    requires ValidRun(cfg, None, steps + [s])
    requires id !in Run(cfg, steps).d.book && id in Run(cfg, steps + [s]).d.book
    ensures s.Done? || s.Crashed?
    ensures var d := Run(cfg, steps).d;
      && s.op.ConfirmOp?
      && id in d.rows
      && var r := d.rows[id];
        && r.state == AwaitingConfirmation
        && r.token == Some(s.op.token) && OwnerOf(r) == PrincipalOf(s.op.ctx)
        && r.issuedAt.Some? && s.op.t1 - r.issuedAt.value <= CONFIRMATION_TTL
        && r.digest == Some(ActionDigest(r.action, cfg.secret))
  {
    var all, w := steps + [s], Run(cfg, steps);
    assert all[..|all| - 1] == steps;
    EveryRunIsGood(cfg, None, steps);
    var script := EffectIn(cfg, w, s.op).script;
    var prefix := if s.Done? then script else script[..CrashPoint(script, s.after)];
    FiledBy(w.d, prefix, id);
    var x :| x in prefix && x.File? && x.id == id;
    OnlyConfirmFiles(cfg, w, s.op, x);
    FoundRow(cfg, None, w, s.op.token);
    GoodInOp(cfg, None, w, s.op, id);
  }

  // ---------------------------------------------------------------- policy

  /** The level of the last risk event, and of the one the last approval rested on. */
  function LastRisk(trail: seq<Entry>): Option<RiskLevel> {
    if trail == [] then None
    else
      var last := trail[|trail| - 1];
      if last.RiskScored? then Some(last.risk.level) else LastRisk(trail[..|trail| - 1])
  }

  function ApprovedRisk(trail: seq<Entry>): Option<RiskLevel> {
    if trail == [] then None
    else if Approves(trail[|trail| - 1]) then LastRisk(trail[..|trail| - 1])
    else ApprovedRisk(trail[..|trail| - 1])
  }

  lemma {:induction false} ApprovedRiskMeans(secret: string, trail: seq<Entry>)
    ensures AuditOf(secret, trail).risk == LastRisk(trail)
    ensures ApprovedRisk(trail).Some? ==> AuditOf(secret, trail).approved == ApprovedRisk(trail)
  {
    if trail != [] {
      ApprovedRiskMeans(secret, trail[..|trail| - 1]);
    }
  }

  /** Every payment is at most R$ 5 000; one above R$ 1 000, or approved at high risk,
      was made with strong assurance on the intent. */
  lemma PaymentsRespectPolicy(cfg: Config, steps: seq<Step>, id: Id)
    requires ValidRun(cfg, None, steps) && id in Run(cfg, steps).d.book
    ensures var d := Run(cfg, steps).d;
      && id in d.rows
      && d.book[id].amount <= HARD_LIMIT
      && (d.book[id].amount > STEP_UP_ABOVE || ApprovedRisk(Trail(d.ledger, id)) == Some(HighRisk) ==>
            d.rows[id].context.assurance == Strong)
  {
    GoodAt(cfg, None, steps, id);
    ApprovedRiskMeans(cfg.secret, Trail(Run(cfg, steps).d.ledger, id));
  }

  /** Policy is not asked again at confirmation, and need not be: with readings at most
      `slack` apart within an operation, no payment above R$ 1 000 is accepted at a
      Sao Paulo time in [20:05 + slack, 06:00). */
  lemma NothingLargeAtNight(cfg: Config, slack: int, steps: seq<Step>, op: Op)
    requires SlackOk(Some(slack)) && ValidRun(cfg, Some(slack), steps + [Done(op)])
    requires Accepted(cfg, Run(cfg, steps).d, op)
    requires ByToken(Run(cfg, steps).d, op.token).value.action.amount > NIGHT_LIMIT
    ensures DAY_START <= TimeOfDay(op.t1) < DAY_END + CONFIRMATION_TTL + slack
  {
    var all, w := steps + [Done(op)], Run(cfg, steps);
    assert all[..|all| - 1] == steps;
    EveryRunIsGood(cfg, Some(slack), steps);
    FoundRow(cfg, Some(slack), w, op.token);
    var r := ByToken(w.d, op.token).value;
    assert Good(EnvAt(cfg, Some(slack), w.now), r.id, ViewOf(cfg.secret, w.d, r.id));
    DaylightDrifts(r.issuedAt.value, op.t1, slack, CONFIRMATION_TTL);
  }
}
