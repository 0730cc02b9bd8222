/** The serial system: one process at a time, any number of conversations, a crash
    between any two writes of any operation, and one book shared by every plane
    (src/control_plane/pgbank.py). A crash discards the process memory, which is every
    conversation's balances and paid-before set; store, ledger and book stay. */
module Serial {
  import opened Actions
  import opened Policy
  import opened Machine
  import opened Bank
  import opened Plane
  import opened Audit
  import opened Intents
  import opened Scripts

  /** `now` is the latest clock reading. A conversation without memory of its own has
      the opening memory: `plane_for` builds it from `fresh()`. */
  datatype World = World(d: Durable, memories: map<Principal, BankMemory>, now: Instant)

  datatype Step =
    | Done(op: Op)
    | Crashed(op: Op, after: nat)
    | Restart
    | Tamper(id: Id, action: CreatePix)

  const BIRTH := World(EMPTY, map[], 0)

  function PrincipalOn(op: Op): Principal {
    if op.SweepOp? then Principal("", "") else PrincipalOf(op.ctx)
  }

  function MemoryOf(cfg: Config, w: World, p: Principal): BankMemory {
    if p in w.memories then w.memories[p] else OpeningMemory(cfg)
  }

  function EffectIn(cfg: Config, w: World, op: Op): Effect {
    EffectOf(cfg, w.d, MemoryOf(cfg, w, PrincipalOn(op)), op)
  }

  predicate ReadsClock(op: Op) {
    op.ProposeOp? || op.StepUpOp? || op.ConfirmOp?
  }

  function Later(op: Op, now: Instant): Instant {
    if ReadsClock(op) then op.t2 else now
  }

  function Remembered(memories: map<Principal, BankMemory>, op: Op, memory: BankMemory): map<Principal, BankMemory> {
    if op.SweepOp? then memories else memories[PrincipalOn(op) := memory]
  }

  function CrashPoint(script: seq<Write>, after: nat): nat {
    if after <= |script| then after else |script|
  }

  function Tampered(d: Durable, id: Id, action: CreatePix): Durable {
    if id in d.rows then d.(rows := d.rows[id := d.rows[id].(action := action)]) else d
  }

  function Next(cfg: Config, w: World, s: Step): World {
    match s
    case Done(op) =>
      var effect := EffectIn(cfg, w, op);
      World(ApplyAll(w.d, effect.script), Remembered(w.memories, op, effect.memory), Later(op, w.now))
    case Crashed(op, after) =>
      var script := EffectIn(cfg, w, op).script;
      World(ApplyAll(w.d, script[..CrashPoint(script, after)]), map[], Later(op, w.now))
    case Restart => w.(memories := map[])
    case Tamper(id, action) => w.(d := Tampered(w.d, id, action))
  }

  function Run(cfg: Config, steps: seq<Step>): World {
    if steps == [] then BIRTH else Next(cfg, Run(cfg, steps[..|steps| - 1]), steps[|steps| - 1])
  }

  // ---------------------------------------------------------------- which runs

  /** `new_id` never repeats itself: a fresh id names nothing yet. */
  ghost predicate FreshId(d: Durable, id: Id) {
    id !in d.rows && id !in d.book && Trail(d.ledger, id) == []
  }

  ghost predicate FreshToken(d: Durable, token: Id) {
    forall i | i in d.rows :: d.rows[i].token != Some(token)
  }

  ghost predicate DrawsFreshIds(d: Durable, op: Op) {
    && (op.ProposeOp? ==> FreshId(d, op.id) && FreshToken(d, op.token))
    && (op.StepUpOp? ==> FreshToken(d, op.token))
    && (op.QueryOp? ==> FreshId(d, op.id))
  }

  /** With a `slack`, the clock never goes back and two readings of one operation are
      at most that far apart; without one, nothing is assumed of it. */
  ghost predicate ReadsInOrder(slack: Option<int>, now: Instant, op: Op) {
    slack.Some? && ReadsClock(op) ==> now <= op.t1 <= op.t2 <= op.t1 + slack.value
  }

  ghost predicate SlackOk(slack: Option<int>) {
    slack.Some? ==> 0 <= slack.value <= MICROS_PER_DAY - DAY_END - CONFIRMATION_TTL
  }

  ghost predicate Allowed(slack: Option<int>, w: World, s: Step) {
    s.Done? || s.Crashed? ==> DrawsFreshIds(w.d, s.op) && ReadsInOrder(slack, w.now, s.op)
  }

  ghost predicate ValidRun(cfg: Config, slack: Option<int>, steps: seq<Step>) {
    steps != [] ==>
      var before := steps[..|steps| - 1];
      ValidRun(cfg, slack, before) && Allowed(slack, Run(cfg, before), steps[|steps| - 1])
  }

  lemma RunSnoc(cfg: Config, slack: Option<int>, steps: seq<Step>, s: Step)
    ensures Run(cfg, steps + [s]) == Next(cfg, Run(cfg, steps), s)
    ensures ValidRun(cfg, slack, steps + [s]) <==> ValidRun(cfg, slack, steps) && Allowed(slack, Run(cfg, steps), s)
  {
    assert (steps + [s])[..|steps|] == steps;
  }

  lemma SweepNext(cfg: Config, w: World, after: nat)
    ensures Next(cfg, w, Done(SweepOp)) == w.(d := ApplyAll(w.d, SweepScript(w.d.order, w.d.rows)))
    ensures var ws := SweepScript(w.d.order, w.d.rows);
      Next(cfg, w, Crashed(SweepOp, after)) == World(ApplyAll(w.d, ws[..CrashPoint(ws, after)]), map[], w.now)
  {
  }

  // ---------------------------------------------------------------- the invariant of every run

  function TimingAt(slack: Option<int>, now: Instant): Timing {
    if slack.Some? then Steady(slack.value, now) else AnyClock
  }

  function EnvAt(cfg: Config, slack: Option<int>, now: Instant): Env {
    Env(cfg, TimingAt(slack, now), None)
  }

  ghost predicate Ordered(d: Durable) {
    && (forall i, j | 0 <= i < j < |d.order| :: d.order[i] != d.order[j])
    && (forall i | i in d.order :: i in d.rows)
    && (forall i | i in d.rows :: i in d.order)
  }

  ghost predicate TokensUnique(d: Durable) {
    forall i, j | i in d.rows && j in d.rows && d.rows[i].token.Some? && d.rows[i].token == d.rows[j].token :: i == j
  }

  ghost predicate AllGood(env: Env, d: Durable) {
    forall id :: Good(env, id, ViewOf(env.cfg.secret, d, id))
  }

  ghost predicate Inv(cfg: Config, slack: Option<int>, w: World) {
    && AllGood(EnvAt(cfg, slack, w.now), w.d)
    && Ordered(w.d)
    && TokensUnique(w.d)
  }

  lemma {:induction false} OrderedKept(d: Durable, ws: seq<Write>)
    requires Ordered(d)
    ensures Ordered(ApplyAll(d, ws))
    decreases |ws|
  {
    if ws != [] {
      OrderedKept(Apply(d, ws[0]), ws[1..]);
    }
  }

  lemma {:induction false} ScanFinds(order: seq<Id>, rows: map<Id, Row>, token: Id)
    ensures ScanForToken(order, rows, token).Some? ==>
      exists id | id in order ::
          id in rows && rows[id] == ScanForToken(order, rows, token).value && rows[id].token == Some(token)
    ensures ScanForToken(order, rows, token).None? ==> forall id | id in order && id in rows ::
        rows[id].token != Some(token)
  {
    if order != [] && !(order[0] in rows && rows[order[0]].token == Some(token)) {
      ScanFinds(order[1..], rows, token);
    }
  }

  /** The first row the dictionary scan meets is the only row with that token, as the
      unique index promises. */
  lemma ScanAgreesWithUniqueIndex(cfg: Config, slack: Option<int>, w: World, token: Id, id: Id)
    requires Inv(cfg, slack, w)
    ensures (ByToken(w.d, token).Some? && ByToken(w.d, token).value.id == id)
       <==> (id in w.d.rows && w.d.rows[id].token == Some(token))
    ensures id in w.d.rows && w.d.rows[id].token == Some(token) ==> ByToken(w.d, token) == Some(w.d.rows[id])
  {
    ScanFinds(w.d.order, w.d.rows, token);
    var found := ByToken(w.d, token);
    if found.Some? {
      var i :| i in w.d.order && i in w.d.rows && w.d.rows[i] == found.value && w.d.rows[i].token == Some(token);
      assert Good(EnvAt(cfg, slack, w.now), i, ViewOf(cfg.secret, w.d, i));
    }
  }

  lemma GoodLater(env: Env, later: Env, id: Id, v: View)
    requires Good(env, id, v) && env.cfg == later.cfg
    requires env.timing.AnyClock? ==> later.timing.AnyClock?
    requires env.timing.Steady?
        ==> later.timing.Steady? && later.timing.slack == env.timing.slack && env.timing.now <= later.timing.now
    ensures Good(later, id, v)
  {
  }

  /** The environment one operation runs in. */
  function OpEnv(cfg: Config, slack: Option<int>, w: World, op: Op): Env {
    Env(cfg, TimingAt(slack, Later(op, w.now)), if op.ProposeOp? || op.StepUpOp? then Some(op.token) else None)
  }

  lemma FreshView(secret: string, d: Durable, id: Id)
    requires FreshId(d, id)
    ensures ViewOf(secret, d, id) == View(None, NOTHING, None)
  {
  }

  /** Where a sweep over `order` leaves one intent. */
  function SweptV(id: Id, v: View, order: seq<Id>, rows: map<Id, Row>): View {
    if id in order && id in rows && rows[id].state == Submitted then Hopped(v, rows[id], Timeout) else v
  }

  lemma SweepFirst(env: Env, id: Id, v: View, r: Row)
    requires Good(env, id, v) && (r.id == id ==> v.row == Some(r))
    ensures Takes(env, id, v, if r.state == Submitted then SweepRow(r) else [],
                  if r.id == id && r.state == Submitted then Hopped(v, r, Timeout) else v)
  {
    if r.id == id && r.state == Submitted {
      SweepRowSafe(env, v, r);
    } else if r.state == Submitted {
      SafeForeign(env, id, v, SweepRow(r));
    }
  }

  lemma {:induction false} SweepSafe(env: Env, id: Id, v: View, order: seq<Id>, rows: map<Id, Row>)
    requires Good(env, id, v)
    requires forall i, j | 0 <= i < j < |order| :: order[i] != order[j]
    requires forall i | i in order :: i in rows && rows[i].id == i
    requires id in order ==> v.row == Some(rows[id])
    ensures Takes(env, id, v, SweepScript(order, rows), SweptV(id, v, order, rows))
    decreases |order|
  {
    if order != [] {
      var r, rest := rows[order[0]], order[1..];
      var head := if r.state == Submitted then SweepRow(r) else [];
      var v' := if r.id == id && r.state == Submitted then Hopped(v, r, Timeout) else v;
      SweepFirst(env, id, v, r);
      TakesEnd(env, id, v, head, v');
      assert forall i | i in rest :: i in order;
      assert order[0] !in rest;
      SweepSafe(env, id, v', rest, rows);
      TakesConcat(env, id, v, head, v', SweepScript(rest, rows), SweptV(id, v', rest, rows));
    }
  }

  /** The one intent an operation writes to; the sweep has none. */
  function SubjectOf(w: World, op: Op): Option<Id> {
    match op
    case ProposeOp(_, _, _, id, _, _, _) => Some(id)
    case StepUpOp(_, id, _, _, _) => Some(id)
    case ReconcileOp(_, id) => Some(id)
    case QueryOp(_, _, id) => Some(id)
    case ConfirmOp(_, token, _, _, _) => if ByToken(w.d, token).Some? then Some(ByToken(w.d, token).value.id) else None
    case CancelOp(_, token) => if ByToken(w.d, token).Some? then Some(ByToken(w.d, token).value.id) else None
    case _ => None
  }

  predicate AllAbout(ws: seq<Write>, id: Id) {
    forall x | x in ws :: Subject(x) == id
  }

  /** Writes about one intent, none of which files a receipt. */
  predicate Quiet(ws: seq<Write>, id: Id) {
    forall x | x in ws :: Subject(x) == id && !x.File?
  }

  lemma DecideQuiet(cfg: Config, r: Row, memory: BankMemory, token: Id, t1: Instant, t2: Instant)
    requires r.state == Validated
    ensures Quiet(Decide(cfg, r, memory, token, t1, t2).0, r.id)
  {
  }

  lemma ProposeQuiet(cfg: Config, memory: BankMemory, ctx: Context, proposed: ProposedPix, text: string, id: Id,
                     token: Id, t1: Instant, t2: Instant)
    ensures Quiet(Propose(cfg, memory, ctx, proposed, text, id, token, t1, t2).script, id)
  {
    hide FindContacts, Decide;
    var matches := FindContacts(cfg.contacts, proposed.recipient);
    if |matches| == 1 {
      var row := Proposed(ctx, proposed, id, matches[0].id);
      DecideQuiet(cfg, Moved(row, Validate), memory, token, t1, t2);
      assert Quiet(ProposeBody(cfg, row, memory, token, t1, t2).0, id);
    }
  }

  lemma StepUpQuiet(cfg: Config, r: Row, memory: BankMemory, token: Id, t1: Instant, t2: Instant)
    requires r.state == AwaitingStepUp
    ensures Quiet(StepUpBody(cfg, r, memory, token, t1, t2).0, r.id)
  {
    DecideQuiet(cfg, Moved(Strengthened(r), StepUp), memory, token, t1, t2);
  }

  lemma AboutConcat(ws: seq<Write>, vs: seq<Write>, id: Id)
    requires AllAbout(ws, id) && AllAbout(vs, id)
    ensures AllAbout(ws + vs, id)
  {
  }

  lemma ConsentAbout(r: Row, ctx: Context, token: Id, at: Instant)
    requires r.state == AwaitingConfirmation
    ensures AllAbout(ConsentScript(r, ctx, token, at), r.id)
  {
  }

  lemma ExecuteAbout(r: Row, effect: PixEffect)
    requires r.state == Submitted
    ensures AllAbout(ExecuteScript(r, effect), r.id)
  {
    AboutConcat(FileScript(r.id, effect.filed), SettleScript(r, effect.answer), r.id);
  }

  lemma ConfirmAbout(cfg: Config, d: Durable, memory: BankMemory, ctx: Context, r: Row, token: Id, t1: Instant,
                     t2: Instant, payment: Id)
    ensures AllAbout(ConfirmRow(cfg, d, memory, ctx, r, token, t1, t2, payment).script, r.id)
  {
    if r.state == AwaitingConfirmation && !Expired(r, t1) && DigestMatches(cfg, r) {
      var submitted := SubmittedRow(r, ctx, t2);
      var call := BankCall(cfg, d, memory, submitted, payment);
      ConsentAbout(r, ctx, token, t2);
      ExecuteAbout(submitted, call);
      AboutConcat(ConsentScript(r, ctx, token, t2), ExecuteScript(submitted, call), r.id);
    }
  }

  lemma ReconcileQuiet(r: Row, receipt: Option<Receipt>)
    requires r.state == Unknown
    ensures Quiet(ReconcileScript(r, receipt), r.id)
  {
  }

  lemma CancelQuiet(cfg: Config, d: Durable, memory: BankMemory, ctx: Context, token: Id)
    ensures ByToken(d, token).None? ==> CancelPix(cfg, d, memory, ctx, token).script == []
    ensures ByToken(d, token).Some? ==> Quiet(CancelPix(cfg, d, memory, ctx, token).script, ByToken(d, token).value.id)
  {
  }

  lemma QueryQuiet(memory: BankMemory, ctx: Context, account: string, id: Id)
    ensures Quiet(Query(memory, ctx, account, id).script, id)
  {
  }

  /** Only a confirmation files receipts; everything else is quiet about its subject. */
  lemma OneSubject(cfg: Config, slack: Option<int>, w: World, op: Op)
    requires Inv(cfg, slack, w) && !op.SweepOp?
    ensures SubjectOf(w, op).None? ==> EffectIn(cfg, w, op).script == []
    ensures SubjectOf(w, op).Some? && op.ConfirmOp? ==> AllAbout(EffectIn(cfg, w, op).script, SubjectOf(w, op).value)
    ensures SubjectOf(w, op).Some? && !op.ConfirmOp? ==> Quiet(EffectIn(cfg, w, op).script, SubjectOf(w, op).value)
  {
    hide Inv, Propose, StepUpBody, ConfirmRow, ReconcileScript, Query, StatusOf;
    var memory := MemoryOf(cfg, w, PrincipalOn(op));
    match op
    case ProposeOp(ctx, proposed, text, id, token, t1, t2) =>
      ProposeQuiet(cfg, memory, ctx, proposed, text, id, token, t1, t2);
    case StepUpOp(ctx, id, token, t1, t2) =>
      RowIsNamed(cfg, slack, w, id);
      if id in w.d.rows && w.d.rows[id].state == AwaitingStepUp {
        StepUpQuiet(cfg, w.d.rows[id], memory, token, t1, t2);
      }
    case ConfirmOp(ctx, token, t1, t2, payment) =>
      if ByToken(w.d, token).Some? {
        ConfirmAbout(cfg, w.d, memory, ctx, ByToken(w.d, token).value, token, t1, t2, payment);
      }
    case CancelOp(ctx, token) => CancelQuiet(cfg, w.d, memory, ctx, token);
    case ReconcileOp(ctx, id) =>
      RowIsNamed(cfg, slack, w, id);
      if id in w.d.rows && w.d.rows[id].state == Unknown {
        ReconcileQuiet(w.d.rows[id], Lookup(w.d.book, id));
      }
    case QueryOp(ctx, account, id) => QueryQuiet(memory, ctx, account, id);
    case _ =>
  }

  lemma RowIsNamed(cfg: Config, slack: Option<int>, w: World, id: Id)
    requires Inv(cfg, slack, w)
    ensures id in w.d.rows ==> w.d.rows[id].id == id
  {
    assert Good(EnvAt(cfg, slack, w.now), id, ViewOf(cfg.secret, w.d, id));
  }

  lemma FoundRow(cfg: Config, slack: Option<int>, w: World, token: Id)
    requires Inv(cfg, slack, w) && ByToken(w.d, token).Some?
    ensures var r := ByToken(w.d, token).value;
      r.token == Some(token) && r.id in w.d.rows && w.d.rows[r.id] == r
  {
    ScanAgreesWithUniqueIndex(cfg, slack, w, token, ByToken(w.d, token).value.id);
  }

  /** Safe from where the world stands, and back in step when it is over. */
  ghost predicate SafeIn(cfg: Config, slack: Option<int>, w: World, op: Op, id: Id) {
    var v, script := ViewOf(cfg.secret, w.d, id), EffectIn(cfg, w, op).script;
    && Safe(OpEnv(cfg, slack, w, op), id, v, script)
    && (InStep(v) ==> InStep(RunV(cfg.secret, id, v, script)))
  }

  lemma GoodInOp(cfg: Config, slack: Option<int>, w: World, op: Op, id: Id)
    requires Inv(cfg, slack, w) && Allowed(slack, w, Done(op))
    ensures Good(OpEnv(cfg, slack, w, op), id, ViewOf(cfg.secret, w.d, id))
  {
    assert Good(EnvAt(cfg, slack, w.now), id, ViewOf(cfg.secret, w.d, id));
    GoodLater(EnvAt(cfg, slack, w.now), OpEnv(cfg, slack, w, op), id, ViewOf(cfg.secret, w.d, id));
  }

  lemma ConfirmIsSafe(cfg: Config, slack: Option<int>, w: World, op: Op)
    requires Inv(cfg, slack, w) && Allowed(slack, w, Done(op)) && op.ConfirmOp? && ByToken(w.d, op.token).Some?
    ensures SafeIn(cfg, slack, w, op, ByToken(w.d, op.token).value.id)
  {
    var r := ByToken(w.d, op.token).value;
    FoundRow(cfg, slack, w, op.token);
    GoodInOp(cfg, slack, w, op, r.id);
    if OwnedByToken(w.d, op.ctx, op.token).Some? {
      ConfirmSafe(OpEnv(cfg, slack, w, op), ViewOf(cfg.secret, w.d, r.id), w.d, r, op.ctx, op.token,
                  MemoryOf(cfg, w, PrincipalOn(op)), op.t1, op.t2, op.payment);
    }
  }

  lemma CancelIsSafe(cfg: Config, slack: Option<int>, w: World, op: Op)
    requires Inv(cfg, slack, w) && op.CancelOp? && ByToken(w.d, op.token).Some?
    ensures SafeIn(cfg, slack, w, op, ByToken(w.d, op.token).value.id)
  {
    var r := ByToken(w.d, op.token).value;
    FoundRow(cfg, slack, w, op.token);
    GoodInOp(cfg, slack, w, op, r.id);
    if OwnedByToken(w.d, op.ctx, op.token).Some? {
      var env, v := OpEnv(cfg, slack, w, op), ViewOf(cfg.secret, w.d, r.id);
      if CanMove(r, Cancel) {
        CancelSafe(env, v, r);
      } else {
        TakesNote(env, r.id, v, TransitionRefused(r.state, Cancel));
      }
    }
  }

  lemma ReconcileIsSafe(cfg: Config, slack: Option<int>, w: World, op: Op)
    requires Inv(cfg, slack, w) && op.ReconcileOp?
    ensures SafeIn(cfg, slack, w, op, op.id)
  {
    GoodInOp(cfg, slack, w, op, op.id);
    var found := OwnedByCustomer(w.d, op.ctx, op.id);
    if found.Some? && found.value.state == Unknown {
      ReconcileSafe(OpEnv(cfg, slack, w, op), ViewOf(cfg.secret, w.d, op.id), found.value);
    }
  }

  lemma StepUpIsSafe(cfg: Config, slack: Option<int>, w: World, op: Op)
    requires Inv(cfg, slack, w) && SlackOk(slack) && Allowed(slack, w, Done(op)) && op.StepUpOp?
    ensures SafeIn(cfg, slack, w, op, op.id)
  {
    GoodInOp(cfg, slack, w, op, op.id);
    var found := OwnedByCustomer(w.d, op.ctx, op.id);
    if found.Some? && found.value.state == AwaitingStepUp {
      StepUpSafe(OpEnv(cfg, slack, w, op), ViewOf(cfg.secret, w.d, op.id), found.value,
                 MemoryOf(cfg, w, PrincipalOn(op)), op.token, op.t1, op.t2);
    }
  }

  lemma NewIsSafe(cfg: Config, slack: Option<int>, w: World, op: Op)
    requires Inv(cfg, slack, w) && SlackOk(slack) && Allowed(slack, w, Done(op)) && (op.ProposeOp? || op.QueryOp?)
    ensures SafeIn(cfg, slack, w, op, op.id)
  {
    var env, v, memory := OpEnv(cfg, slack, w, op), ViewOf(cfg.secret, w.d, op.id), MemoryOf(cfg, w, PrincipalOn(op));
    FreshView(cfg.secret, w.d, op.id);
    if op.ProposeOp? {
      ProposeSafe(env, v, memory, op.ctx, op.proposed, op.text, op.id, op.token, op.t1, op.t2);
    } else {
      QuerySafe(env, v, memory, op.ctx, op.account, op.id);
    }
  }

  lemma SweepScriptSafe(cfg: Config, slack: Option<int>, w: World, id: Id)
    requires Inv(cfg, slack, w)
    ensures Takes(OpEnv(cfg, slack, w, SweepOp), id, ViewOf(cfg.secret, w.d, id), SweepScript(w.d.order, w.d.rows),
                  SweptV(id, ViewOf(cfg.secret, w.d, id), w.d.order, w.d.rows))
  {
    forall i | i in w.d.rows
      ensures w.d.rows[i].id == i
    {
      assert Good(EnvAt(cfg, slack, w.now), i, ViewOf(cfg.secret, w.d, i));
    }
    var env, v := OpEnv(cfg, slack, w, SweepOp), ViewOf(cfg.secret, w.d, id);
    assert Good(EnvAt(cfg, slack, w.now), id, v);
    GoodLater(EnvAt(cfg, slack, w.now), env, id, v);
    SweepSafe(env, id, v, w.d.order, w.d.rows);
  }

  lemma SweepIsSafe(cfg: Config, slack: Option<int>, w: World, op: Op, id: Id)
    requires Inv(cfg, slack, w) && op.SweepOp?
    ensures SafeIn(cfg, slack, w, op, id)
  {
    hide Inv, SweepScript, Trail, AuditOf, Safe, RunV;
    SweepScriptSafe(cfg, slack, w, id);
  }

  lemma SubjectIsSafe(cfg: Config, slack: Option<int>, w: World, op: Op, id: Id)
    requires Inv(cfg, slack, w) && SlackOk(slack) && Allowed(slack, w, Done(op)) && SubjectOf(w, op) == Some(id)
    ensures SafeIn(cfg, slack, w, op, id)
  {
    match op
    case ConfirmOp(_, _, _, _, _) => ConfirmIsSafe(cfg, slack, w, op);
    case CancelOp(_, _) => CancelIsSafe(cfg, slack, w, op);
    case ReconcileOp(_, _) => ReconcileIsSafe(cfg, slack, w, op);
    case StepUpOp(_, _, _, _, _) => StepUpIsSafe(cfg, slack, w, op);
    case _ => NewIsSafe(cfg, slack, w, op);
  }

  lemma OthersAreSafe(cfg: Config, slack: Option<int>, w: World, op: Op, id: Id)
    requires Inv(cfg, slack, w) && Allowed(slack, w, Done(op)) && SubjectOf(w, op) != Some(id) && !op.SweepOp?
    ensures SafeIn(cfg, slack, w, op, id)
  {
    GoodInOp(cfg, slack, w, op, id);
    OneSubject(cfg, slack, w, op);
    SafeForeign(OpEnv(cfg, slack, w, op), id, ViewOf(cfg.secret, w.d, id), EffectIn(cfg, w, op).script);
  }

  /** Every operation is safe for every intent, the one it is about and all others. */
  lemma OpSafe(cfg: Config, slack: Option<int>, w: World, op: Op, id: Id)
    requires Inv(cfg, slack, w) && SlackOk(slack) && Allowed(slack, w, Done(op))
    ensures SafeIn(cfg, slack, w, op, id)
  {
    hide Inv, EffectOf, SubjectOf, SafeIn;
    if op.SweepOp? {
      SweepIsSafe(cfg, slack, w, op, id);
    } else if SubjectOf(w, op) == Some(id) {
      SubjectIsSafe(cfg, slack, w, op, id);
    } else {
      OthersAreSafe(cfg, slack, w, op, id);
    }
  }

  /** What one operation, or any prefix of its writes, does to one intent. */
  lemma PrefixAdvances(cfg: Config, slack: Option<int>, w: World, op: Op, k: nat, id: Id)
    requires Inv(cfg, slack, w) && SlackOk(slack) && Allowed(slack, w, Done(op))
    requires k <= |EffectIn(cfg, w, op).script|
    ensures var env := OpEnv(cfg, slack, w, op);
      var v, v' := ViewOf(cfg.secret, w.d, id), ViewOf(cfg.secret, ApplyAll(w.d, EffectIn(cfg, w, op).script[..k]), id);
      Good(env, id, v') && Advanced(env, v, v') && (SubjectOf(w, op) != Some(id) ==> TokenOf(v') == TokenOf(v))
  {
    var script := EffectIn(cfg, w, op).script;
    var env, v := OpEnv(cfg, slack, w, op), ViewOf(cfg.secret, w.d, id);
    OpSafe(cfg, slack, w, op, id);
    SafePrefix(env, id, v, script, k);
    RunIsLocal(cfg.secret, w.d, script[..k], id);
    if SubjectOf(w, op) != Some(id) && !op.SweepOp? {
      OneSubject(cfg, slack, w, op);
      assert forall x | x in script[..k] :: x in script;
      assert Good(env, id, v);
      SafeForeign(env, id, v, script[..k]);
    }
  }

  lemma PrefixKeepsInv(cfg: Config, slack: Option<int>, w: World, op: Op, k: nat, memories: map<Principal, BankMemory>)
    requires Inv(cfg, slack, w) && SlackOk(slack) && Allowed(slack, w, Done(op))
    requires k <= |EffectIn(cfg, w, op).script|
    ensures Inv(cfg, slack, World(ApplyAll(w.d, EffectIn(cfg, w, op).script[..k]), memories, Later(op, w.now)))
  {
    var d' := ApplyAll(w.d, EffectIn(cfg, w, op).script[..k]);
    var env, env' := OpEnv(cfg, slack, w, op), EnvAt(cfg, slack, Later(op, w.now));
    OrderedKept(w.d, EffectIn(cfg, w, op).script[..k]);
    forall id
      ensures Good(env', id, ViewOf(cfg.secret, d', id))
    {
      PrefixAdvances(cfg, slack, w, op, k, id);
      GoodLater(env, env', id, ViewOf(cfg.secret, d', id));
    }
    forall i, j | i in d'.rows && j in d'.rows && d'.rows[i].token.Some? && d'.rows[i].token == d'.rows[j].token
      ensures i == j
    {
      TokenOrigin(cfg, slack, w, op, k, i);
      TokenOrigin(cfg, slack, w, op, k, j);
    }
  }

  /** After any prefix, a stored token is the one stored before or the one just drawn. */
  lemma TokenOrigin(cfg: Config, slack: Option<int>, w: World, op: Op, k: nat, i: Id)
    requires Inv(cfg, slack, w) && SlackOk(slack) && Allowed(slack, w, Done(op))
    requires k <= |EffectIn(cfg, w, op).script|
    ensures var d' := ApplyAll(w.d, EffectIn(cfg, w, op).script[..k]);
      i in d'.rows && d'.rows[i].token.Some? ==>
        || (i in w.d.rows && d'.rows[i].token == w.d.rows[i].token)
        || ((op.ProposeOp? || op.StepUpOp?) && SubjectOf(w, op) == Some(i) && d'.rows[i].token == Some(op.token))
  {
    PrefixAdvances(cfg, slack, w, op, k, i);
  }

  lemma TamperKeepsInv(cfg: Config, slack: Option<int>, w: World, id: Id, action: CreatePix)
    requires Inv(cfg, slack, w)
    ensures Inv(cfg, slack, w.(d := Tampered(w.d, id, action)))
  {
    var env, d' := EnvAt(cfg, slack, w.now), Tampered(w.d, id, action);
    forall i
      ensures Good(env, i, ViewOf(cfg.secret, d', i))
    {
      assert Good(env, i, ViewOf(cfg.secret, w.d, i));
    }
    assert forall i | i in d'.rows :: i in w.d.rows && d'.rows[i].token == w.d.rows[i].token;
  }

  /** The invariant holds in every reachable state, with crashes anywhere. */
  lemma {:induction false} EveryRunIsGood(cfg: Config, slack: Option<int>, steps: seq<Step>)
    requires SlackOk(slack) && ValidRun(cfg, slack, steps)
    ensures Inv(cfg, slack, Run(cfg, steps))
  {
    if steps == [] {
      forall id
        ensures Good(EnvAt(cfg, slack, 0), id, ViewOf(cfg.secret, EMPTY, id))
      {
      }
    } else {
      var before, last := steps[..|steps| - 1], steps[|steps| - 1];
      EveryRunIsGood(cfg, slack, before);
      StepKeepsInv(cfg, slack, Run(cfg, before), last);
    }
  }

  lemma StepKeepsInv(cfg: Config, slack: Option<int>, w: World, s: Step)
    requires SlackOk(slack) && Inv(cfg, slack, w) && Allowed(slack, w, s)
    ensures Inv(cfg, slack, Next(cfg, w, s))
  {
    match s
    case Done(op) =>
      var effect := EffectIn(cfg, w, op);
      assert effect.script[..|effect.script|] == effect.script;
      PrefixKeepsInv(cfg, slack, w, op, |effect.script|, Remembered(w.memories, op, effect.memory));
    case Crashed(op, after) =>
      PrefixKeepsInv(cfg, slack, w, op, CrashPoint(EffectIn(cfg, w, op).script, after), map[]);
    case Restart =>
    case Tamper(id, action) => TamperKeepsInv(cfg, slack, w, id, action);
  }
}
