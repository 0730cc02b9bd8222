/** How an intent lives through a run: what is final, how many hops it has, what a
    restart recovers, what it does not, and how the ledger replays. */
module Lifetimes {
  import opened Actions
  import opened Policy
  import opened Machine
  import opened Bank
  import opened Plane
  import opened Audit
  import opened Intents
  import opened Scripts
  import opened Serial
  import opened Guarantees

  // ---------------------------------------------------------------- what a run never takes back

  ghost predicate Evolves(v: View, v': View) {
    Accumulates(v, v') && (v.row.Some? ==> v'.row.Some? && RowProgress(v.row.value, v'.row.value))
  }

  lemma TamperEvolves(cfg: Config, d: Durable, tampered: Id, action: CreatePix, id: Id)
    ensures Evolves(ViewOf(cfg.secret, d, id), ViewOf(cfg.secret, Tampered(d, tampered, action), id))
  {
  }

  lemma WritesEvolve(cfg: Config, w: World, op: Op, k: nat, id: Id)
    requires Inv(cfg, None, w) && Allowed(None, w, Done(op)) && k <= |EffectIn(cfg, w, op).script|
    ensures Evolves(ViewOf(cfg.secret, w.d, id),
                    ViewOf(cfg.secret, ApplyAll(w.d, EffectIn(cfg, w, op).script[..k]), id))
  {
    PrefixAdvances(cfg, None, w, op, k, id);
  }

  lemma StepEvolves(cfg: Config, w: World, s: Step, id: Id)
    requires Inv(cfg, None, w) && Allowed(None, w, s)
    ensures Evolves(ViewOf(cfg.secret, w.d, id), ViewOf(cfg.secret, Next(cfg, w, s).d, id))
  {
    match s
    case Done(op) =>
      var script := EffectIn(cfg, w, op).script;
      assert script[..|script|] == script;
      WritesEvolve(cfg, w, op, |script|, id);
    case Crashed(op, after) =>
      WritesEvolve(cfg, w, op, CrashPoint(EffectIn(cfg, w, op).script, after), id);
    case Restart =>
    case Tamper(tampered, action) => TamperEvolves(cfg, w.d, tampered, action, id);
  }

  lemma {:induction false} RunEvolves(cfg: Config, steps: seq<Step>, n: nat, id: Id)
    requires ValidRun(cfg, None, steps) && n <= |steps|
    ensures ValidRun(cfg, None, steps[..n])
    ensures Evolves(ViewOf(cfg.secret, Run(cfg, steps[..n]).d, id), ViewOf(cfg.secret, Run(cfg, steps).d, id))
    decreases |steps|
  {
    if n == |steps| {
      assert steps[..n] == steps;
    } else {
      var before := steps[..|steps| - 1];
      assert before[..n] == steps[..n];
      RunEvolves(cfg, before, n, id);
      EveryRunIsGood(cfg, None, before);
      StepEvolves(cfg, Run(cfg, before), steps[|steps| - 1], id);
    }
  }

  lemma SettledView(env: Env, env': Env, id: Id, v: View, v': View)
    requires Good(env, id, v) && Good(env', id, v') && Evolves(v, v')
    ensures v.booked.Some? ==> v'.booked == v.booked
    ensures v.row.Some? ==> v'.row.Some? && OwnerOf(v'.row.value) == OwnerOf(v.row.value)
    ensures v.row.Some? && v.row.value.state in {Completed, Failed, Cancelled} ==>
      v'.row.value.state == v.row.value.state && v'.row.value.receipt == v.row.value.receipt
  {
  }

  /** COMPLETED, FAILED and CANCELLED are final, a receipt once booked is never
      rewritten, and an intent never changes hands. */
  lemma SettledIsForever(cfg: Config, steps: seq<Step>, n: nat, id: Id)
    requires ValidRun(cfg, None, steps) && n <= |steps|
    ensures var d, d' := Run(cfg, steps[..n]).d, Run(cfg, steps).d;
      && (id in d.book ==> id in d'.book && d'.book[id] == d.book[id])
      && (id in d.rows ==> id in d'.rows && OwnerOf(d'.rows[id]) == OwnerOf(d.rows[id]))
      && (id in d.rows && d.rows[id].state in {Completed, Failed, Cancelled} ==>
            d'.rows[id].state == d.rows[id].state && d'.rows[id].receipt == d.rows[id].receipt)
  {
    RunEvolves(cfg, steps, n, id);
    GoodAt(cfg, None, steps[..n], id);
    GoodAt(cfg, None, steps, id);
    var w, w' := Run(cfg, steps[..n]), Run(cfg, steps);
    hide Good, Evolves, Run, Inv, AuditOf, Trail;
    SettledView(EnvAt(cfg, None, w.now), EnvAt(cfg, None, w'.now), id, ViewOf(cfg.secret, w.d, id),
                ViewOf(cfg.secret, w'.d, id));
  }

  // ---------------------------------------------------------------- bounded hops

  /** How often the stored state of one intent changes while `ws` is written. */
  function StateChanges(d: Durable, ws: seq<Write>, id: Id): nat
    decreases |ws|
  {
    if ws == [] then 0
    else
      var d' := Apply(d, ws[0]);
      (if id in d.rows && d'.rows[id].state != d.rows[id].state then 1 else 0) + StateChanges(d', ws[1..], id)
  }

  function WrittenBy(cfg: Config, w: World, s: Step): seq<Write> {
    match s
    case Done(op) => EffectIn(cfg, w, op).script
    case Crashed(op, after) =>
      var script := EffectIn(cfg, w, op).script;
      script[..CrashPoint(script, after)]
    case _ => []
  }

  function ChangesIn(cfg: Config, steps: seq<Step>, id: Id): nat {
    if steps == [] then 0
    else
      var before, last := steps[..|steps| - 1], steps[|steps| - 1];
      ChangesIn(cfg, before, id) + StateChanges(Run(cfg, before).d, WrittenBy(cfg, Run(cfg, before), last), id)
  }

  function Budget(d: Durable, id: Id): nat {
    if id in d.rows then HopsLeft(d.rows[id]) else 8
  }

  lemma OneChange(env: Env, d: Durable, w: Write, id: Id)
    requires Subject(w) == id ==>
      var v := ViewOf(env.cfg.secret, d, id); Progress(env, v, ApplyV(env.cfg.secret, v, w))
    ensures (if id in d.rows && Apply(d, w).rows[id].state != d.rows[id].state then 1 else 0) + Budget(Apply(d, w), id)
         <= Budget(d, id)
  {
    if Subject(w) == id {
      WriteIsLocal(env.cfg.secret, d, w, id);
      assert Lookup(d.rows, id) == ViewOf(env.cfg.secret, d, id).row;
    }
  }

  lemma {:induction false} ChangesSpendBudget(env: Env, d: Durable, ws: seq<Write>, k: nat, id: Id)
    requires Safe(env, id, ViewOf(env.cfg.secret, d, id), ws) && k <= |ws|
    ensures StateChanges(d, ws[..k], id) + Budget(ApplyAll(d, ws[..k]), id) <= Budget(d, id)
    decreases |ws|
  {
    if k > 0 {
      OneChange(env, d, ws[0], id);
      WriteIsLocal(env.cfg.secret, d, ws[0], id);
      assert ws[..k][1..] == ws[1..][..k - 1] && ws[..k][0] == ws[0];
      ChangesSpendBudget(env, Apply(d, ws[0]), ws[1..], k - 1, id);
    }
  }

  lemma StepSpendsBudget(cfg: Config, w: World, s: Step, id: Id)
    requires Inv(cfg, None, w) && Allowed(None, w, s)
    ensures StateChanges(w.d, WrittenBy(cfg, w, s), id) + Budget(Next(cfg, w, s).d, id) <= Budget(w.d, id)
  {
    if s.Done? || s.Crashed? {
      var script := EffectIn(cfg, w, s.op).script;
      OpSafe(cfg, None, w, s.op, id);
      ChangesSpendBudget(OpEnv(cfg, None, w, s.op), w.d, script,
                         if s.Done? then |script| else CrashPoint(script, s.after), id);
      assert script[..|script|] == script;
    }
  }

  function Times(trail: seq<Entry>, hop: Hop): nat {
    if trail == [] then 0
    else
      var last := trail[|trail| - 1];
      Times(trail[..|trail| - 1], hop) + if last.Transition? && last.hop == hop then 1 else 0
  }

  lemma {:induction false} StepUpsAreCounted(secret: string, trail: seq<Entry>)
    ensures AuditOf(secret, trail).stepUps == Times(trail, RequireStepUp)
  {
    if trail != [] {
      StepUpsAreCounted(secret, trail[..|trail| - 1]);
    }
  }

  lemma {:induction false} ChangesAreBudgeted(cfg: Config, steps: seq<Step>, id: Id)
    requires ValidRun(cfg, None, steps)
    ensures ChangesIn(cfg, steps, id) + Budget(Run(cfg, steps).d, id) <= 8
  {
    if steps != [] {
      var before := steps[..|steps| - 1];
      ChangesAreBudgeted(cfg, before, id);
      EveryRunIsGood(cfg, None, before);
      StepSpendsBudget(cfg, Run(cfg, before), steps[|steps| - 1], id);
    }
  }

  /** In every run, however often it crashes and restarts, a stored intent changes state
      at most eight times, is asked to step up at most once, and is never seen in the
      two states the table has and the plane does not use. */
  lemma EveryIntentEnds(cfg: Config, steps: seq<Step>, id: Id)
    requires ValidRun(cfg, None, steps)
    ensures ChangesIn(cfg, steps, id) <= 8
    ensures var d := Run(cfg, steps).d;
      id in d.rows ==> Times(Trail(d.ledger, id), RequireStepUp) <= 1 && d.rows[id].state !in {Pending, Reversed}
  {
    ChangesAreBudgeted(cfg, steps, id);
    GoodAt(cfg, None, steps, id);
    StepUpsAreCounted(cfg.secret, Trail(Run(cfg, steps).d.ledger, id));
  }

  // ---------------------------------------------------------------- what a crash strands

  predicate Stranded(s: State) {
    s in {Created, Validated, Authorized}
  }

  lemma NoScriptForStranded(cfg: Config, w: World, op: Op, id: Id)
    requires Inv(cfg, None, w) && Allowed(None, w, Done(op)) && id in w.d.rows && Stranded(w.d.rows[id].state)
    requires SubjectOf(w, op) == Some(id)
    ensures forall x | x in EffectIn(cfg, w, op).script :: x.Append?
  {
    RowIsNamed(cfg, None, w, id);
    if op.ConfirmOp? || op.CancelOp? {
      FoundRow(cfg, None, w, op.token);
    }
  }

  lemma StrandedStep(cfg: Config, w: World, s: Step, id: Id)
    requires Inv(cfg, None, w) && Allowed(None, w, s) && id in w.d.rows && Stranded(w.d.rows[id].state)
    ensures var d' := Next(cfg, w, s).d; id in d'.rows && d'.rows[id].state == w.d.rows[id].state && id !in d'.book
  {
    assert Good(EnvAt(cfg, None, w.now), id, ViewOf(cfg.secret, w.d, id));
    if s.Done? || s.Crashed? {
      var ws := WrittenBy(cfg, w, s);
      var script := EffectIn(cfg, w, s.op).script;
      assert script[..|script|] == script;
      assert forall x | x in ws :: x in script;
      if s.op.SweepOp? {
        SweepScriptSafe(cfg, None, w, id);
        StrandedInSweep(cfg, w, s, id);
      } else if SubjectOf(w, s.op) == Some(id) {
        NoScriptForStranded(cfg, w, s.op, id);
        AppendsKeepRows(w.d, ws);
      } else {
        StrandedElsewhere(cfg, w, s, id);
      }
    }
  }

  lemma StrandedElsewhere(cfg: Config, w: World, s: Step, id: Id)
    requires Inv(cfg, None, w) && Allowed(None, w, s) && (s.Done? || s.Crashed?)
    requires !s.op.SweepOp? && SubjectOf(w, s.op) != Some(id)
    ensures ViewOf(cfg.secret, Next(cfg, w, s).d, id) == ViewOf(cfg.secret, w.d, id)
  {
    var ws, script := WrittenBy(cfg, w, s), EffectIn(cfg, w, s.op).script;
    OneSubject(cfg, None, w, s.op);
    assert script[..|script|] == script;
    assert forall x | x in ws :: x in script;
    GoodInOp(cfg, None, w, s.op, id);
    SafeForeign(OpEnv(cfg, None, w, s.op), id, ViewOf(cfg.secret, w.d, id), ws);
    RunIsLocal(cfg.secret, w.d, ws, id);
  }

  lemma {:induction false} SweepSkips(order: seq<Id>, rows: map<Id, Row>, id: Id)
    requires forall i | i in order :: i in rows && rows[i].id == i
    requires id in rows && rows[id].state != Submitted
    ensures forall x | x in SweepScript(order, rows) :: Subject(x) != id
    decreases |order|
  {
    if order != [] {
      assert forall i | i in order[1..] :: i in order;
      SweepSkips(order[1..], rows, id);
    }
  }

  lemma StrandedInSweep(cfg: Config, w: World, s: Step, id: Id)
    requires Inv(cfg, None, w) && (s.Done? || s.Crashed?) && s.op.SweepOp?
    requires id in w.d.rows && w.d.rows[id].state != Submitted
    ensures ViewOf(cfg.secret, Next(cfg, w, s).d, id) == ViewOf(cfg.secret, w.d, id)
  {
    hide SweepScript, ApplyAll, Trail, AuditOf;
    forall i | i in w.d.order
      ensures w.d.rows[i].id == i
    {
      RowIsNamed(cfg, None, w, i);
    }
    var ws, script := WrittenBy(cfg, w, s), EffectIn(cfg, w, s.op).script;
    SweepSkips(w.d.order, w.d.rows, id);
    assert script[..|script|] == script;
    assert forall x | x in ws :: x in script;
    GoodInOp(cfg, None, w, s.op, id);
    SafeForeign(OpEnv(cfg, None, w, s.op), id, ViewOf(cfg.secret, w.d, id), ws);
    RunIsLocal(cfg.secret, w.d, ws, id);
  }

  /** An intent a crash left between two hops, in CREATED, VALIDATED or AUTHORIZED, is
      neither recovered nor paid: no later step of any run moves it, and its key is
      never booked. */
  lemma {:induction false} StrandedIsNeverPaid(cfg: Config, steps: seq<Step>, n: nat, id: Id)
    requires ValidRun(cfg, None, steps) && n <= |steps|
    requires id in Run(cfg, steps[..n]).d.rows && Stranded(Run(cfg, steps[..n]).d.rows[id].state)
    ensures var d, d' := Run(cfg, steps[..n]).d, Run(cfg, steps).d;
      id in d'.rows && d'.rows[id].state == d.rows[id].state && id !in d'.book
    decreases |steps|
  {
    if n == |steps| {
      assert steps[..n] == steps;
      GoodAt(cfg, None, steps, id);
    } else {
      var before := steps[..|steps| - 1];
      assert before[..n] == steps[..n];
      StrandedIsNeverPaid(cfg, before, n, id);
      EveryRunIsGood(cfg, None, before);
      StrandedStep(cfg, Run(cfg, before), steps[|steps| - 1], id);
    }
  }

  /** A crash after the fourth write of an accepted confirmation leaves AUTHORIZED. */
  lemma CrashLeavesAuthorized(cfg: Config, w: World, op: Op)
    requires Accepted(cfg, w.d, op)
    ensures var id, d' := ByToken(w.d, op.token).value.id, Next(cfg, w, Crashed(op, 4)).d;
      id in d'.rows && d'.rows[id].state == Authorized
  {
    var r := ByToken(w.d, op.token).value;
    var consented := Consented(r, op.ctx, op.t2);
    var script, head := EffectIn(cfg, w, op).script, ConsentHead(r, op.ctx, op.token, op.t2);
    var hop := Move(consented, Confirm);
    assert script[..4] == head + [hop[0]] + [Put(Moved(consented, Confirm))];
    LastPutWins(w.d, head + [hop[0]], Moved(consented, Confirm));
  }

  /** A crash after the fourth write of a proposal that finds its recipient leaves CREATED. */
  lemma CrashLeavesCreated(cfg: Config, w: World, op: Op)
    requires op.ProposeOp? && |FindContacts(cfg.contacts, op.proposed.recipient)| == 1
    ensures var d' := Next(cfg, w, Crashed(op, 4)).d; op.id in d'.rows && d'.rows[op.id].state == Created
  {
    var matches := FindContacts(cfg.contacts, op.proposed.recipient);
    var head := ProposeHead(op.ctx, op.proposed, op.text, op.id, matches);
    var row := Proposed(op.ctx, op.proposed, op.id, matches[0].id);
    assert EffectIn(cfg, w, op).script[..4] == head + [Put(row)];
    LastPutWins(w.d, head, row);
  }

  /** Three writes later, preconditions met, it leaves VALIDATED. */
  lemma CrashLeavesValidated(cfg: Config, w: World, op: Op)
    requires op.ProposeOp? && |FindContacts(cfg.contacts, op.proposed.recipient)| == 1
    requires var recipient := FindContacts(cfg.contacts, op.proposed.recipient)[0].id;
      MissingPreconditions(cfg, MemoryOf(cfg, w, PrincipalOn(op)),
                           CreatePix(DEFAULT_ACCOUNT, recipient, op.proposed.amount)) == []
    ensures var d' := Next(cfg, w, Crashed(op, 7)).d; op.id in d'.rows && d'.rows[op.id].state == Validated
  {
    hide Evaluate, RiskOf, HasContact;
    var matches := FindContacts(cfg.contacts, op.proposed.recipient);
    var head := ProposeHead(op.ctx, op.proposed, op.text, op.id, matches);
    var row := Proposed(op.ctx, op.proposed, op.id, matches[0].id);
    var before := head + [Put(row), Append(row.id, CanonicalAction(row.action)), Move(row, Validate)[0]];
    assert EffectIn(cfg, w, op).script[..7] == before + [Put(Moved(row, Validate))];
    LastPutWins(w.d, before, Moved(row, Validate));
  }

  ghost predicate MovesIt(cfg: Config, w: World, s: Step, id: Id)
    requires id in w.d.rows
  {
    && Allowed(None, w, s)
    && var d' := Next(cfg, w, s).d; id in d'.rows && d'.rows[id].state != w.d.rows[id].state
  }

  predicate Movable(s: State) {
    s in {AwaitingStepUp, AwaitingConfirmation, Submitted, Unknown}
  }

  lemma NothingMovesIt(cfg: Config, w: World, s: Step, id: Id)
    requires Inv(cfg, None, w) && Allowed(None, w, s) && id in w.d.rows && !Movable(w.d.rows[id].state)
    ensures !MovesIt(cfg, w, s, id)
  {
    assert Good(EnvAt(cfg, None, w.now), id, ViewOf(cfg.secret, w.d, id));
    if Stranded(w.d.rows[id].state) {
      StrandedStep(cfg, w, s, id);
    } else {
      StepEvolves(cfg, w, s, id);
    }
  }

  lemma {:induction false} LongestToken(rows: map<Id, Row>, ids: set<Id>) returns (n: nat)
    ensures forall i | i in ids && i in rows && rows[i].token.Some? :: |rows[i].token.value| <= n
    decreases |ids|
  {
    n := 0;
    if ids != {} {
      var i :| i in ids;
      n := LongestToken(rows, ids - {i});
      if i in rows && rows[i].token.Some? && |rows[i].token.value| > n {
        n := |rows[i].token.value|;
      }
    }
  }

  /** There is always another token to draw. */
  lemma SomeFreshToken(d: Durable) returns (token: Id)
    ensures FreshToken(d, token)
  {
    var n := LongestToken(d.rows, d.rows.Keys);
    token := seq(n + 1, _ => 'x');
    assert |token| == n + 1;
  }

  lemma StrongIsNotStepped(r: Row, memory: BankMemory, now: Instant)
    requires r.context.assurance == Strong
    ensures VerdictOn(r, memory, now).decision != RequireStepUpAuth
  {
    assert Rank(Strong) == 2;
  }

  lemma StepUpMovesIt(cfg: Config, w: World, id: Id, token: Id)
    requires Inv(cfg, None, w) && id in w.d.rows && w.d.rows[id].state == AwaitingStepUp && FreshToken(w.d, token)
    ensures MovesIt(cfg, w, Done(StepUpOp(w.d.rows[id].context, id, token, 0, 0)), id)
  {
    hide Inv, VerdictOn, ApplyAll, FreshToken;
    RowIsNamed(cfg, None, w, id);
    var r, op := w.d.rows[id], StepUpOp(w.d.rows[id].context, id, token, 0, 0);
    var strong, script := Strengthened(r), EffectIn(cfg, w, op).script;
    var validated := Moved(strong, StepUp);
    StrongIsNotStepped(validated, MemoryOf(cfg, w, PrincipalOn(op)), 0);
    var issued := Issued(cfg, validated, token, 0);
    var last := if VerdictOn(validated, MemoryOf(cfg, w, PrincipalOn(op)), 0).decision == RequireConfirmation
      then Moved(issued, AwaitConfirmation) else Moved(validated, Reject);
    assert script[|script| - 1] == Put(last);
    assert script == script[..|script| - 1] + [Put(last)];
    LastPutWins(w.d, script[..|script| - 1], last);
  }

  lemma CancelMovesIt(cfg: Config, w: World, id: Id)
    requires Inv(cfg, None, w) && id in w.d.rows && w.d.rows[id].state == AwaitingConfirmation
    ensures w.d.rows[id].token.Some?
    ensures MovesIt(cfg, w, Done(CancelOp(w.d.rows[id].context, w.d.rows[id].token.value)), id)
  {
    var r := w.d.rows[id];
    RowIsNamed(cfg, None, w, id);
    assert Good(EnvAt(cfg, None, w.now), id, ViewOf(cfg.secret, w.d, id));
    ScanAgreesWithUniqueIndex(cfg, None, w, r.token.value, id);
    var script := EffectIn(cfg, w, CancelOp(r.context, r.token.value)).script;
    assert script == Move(r, Cancel) + [Put(Moved(r, Cancel))];
    LastPutWins(w.d, Move(r, Cancel), Moved(r, Cancel));
  }

  lemma SweepMovesIt(cfg: Config, w: World, id: Id)
    requires Inv(cfg, None, w) && id in w.d.rows && w.d.rows[id].state == Submitted
    ensures MovesIt(cfg, w, Done(SweepOp), id)
  {
    SweepViews(cfg, w);
    hide Inv, ApplyAll, SweepScript;
  }

  lemma ReconcileMovesIt(cfg: Config, w: World, id: Id)
    requires Inv(cfg, None, w) && id in w.d.rows && w.d.rows[id].state == Unknown
    ensures MovesIt(cfg, w, Done(ReconcileOp(w.d.rows[id].context, id)), id)
  {
    hide Inv, ApplyAll, ReconcileScript;
    RowIsNamed(cfg, None, w, id);
    ReconcileStores(cfg, w, id);
  }

  /** In every reachable state, some step can move a stored intent exactly when it awaits
      step-up or confirmation, is SUBMITTED or is UNKNOWN: that is, when it is neither
      stranded nor settled. */
  lemma MovesExactly(cfg: Config, steps: seq<Step>, id: Id)
    requires ValidRun(cfg, None, steps) && id in Run(cfg, steps).d.rows
    ensures var w := Run(cfg, steps); (exists s :: MovesIt(cfg, w, s, id)) <==> Movable(w.d.rows[id].state)
    ensures var state := Run(cfg, steps).d.rows[id].state;
      Movable(state) <==> !Stranded(state) && state !in {Completed, Failed, Cancelled}
  {
    var w := Run(cfg, steps);
    EveryRunIsGood(cfg, None, steps);
    GoodAt(cfg, None, steps, id);
    hide Run, Inv, Good, MovesIt, ValidRun;
    match w.d.rows[id].state
    case AwaitingStepUp =>
      var token := SomeFreshToken(w.d);
      StepUpMovesIt(cfg, w, id, token);
    case AwaitingConfirmation => CancelMovesIt(cfg, w, id);
    case Submitted => SweepMovesIt(cfg, w, id);
    case Unknown => ReconcileMovesIt(cfg, w, id);
    case _ => StuckForGood(cfg, w, id);
  }

  lemma StuckForGood(cfg: Config, w: World, id: Id)
    requires Inv(cfg, None, w) && id in w.d.rows && !Movable(w.d.rows[id].state)
    ensures forall s :: !MovesIt(cfg, w, s, id)
  {
    forall s
      ensures !MovesIt(cfg, w, s, id)
    {
      if Allowed(None, w, s) {
        NothingMovesIt(cfg, w, s, id);
      }
    }
  }

  // ---------------------------------------------------------------- recovery

  lemma {:induction false} NothingToSweep(order: seq<Id>, rows: map<Id, Row>)
    requires forall i | i in order && i in rows :: rows[i].state != Submitted
    ensures SweepScript(order, rows) == [] && InState(order, rows, Submitted) == []
    decreases |order|
  {
    if order != [] {
      assert forall i | i in order[1..] :: i in order;
      NothingToSweep(order[1..], rows);
    }
  }

  /** What a boot sweep does to the rows. */
  ghost predicate SweptRows(d: Durable, d': Durable) {
    && d'.rows.Keys == d.rows.Keys
    && forall id | id in d.rows ::
         d'.rows[id] == if d.rows[id].state == Submitted then d.rows[id].(state := Unknown) else d.rows[id]
  }

  /** From any reachable crashed state a sweep returns exactly the SUBMITTED ids, once
      each, in the store's order, turns each of them UNKNOWN, touches no other row, nobody else's trail and not
      the bank; and a second sweep finds and writes nothing. */
  lemma SweepRecovers(cfg: Config, steps: seq<Step>, memory: BankMemory)
    requires ValidRun(cfg, None, steps)
    ensures var d := Run(cfg, steps).d;
      var effect := Sweep(d, memory);
      var d' := ApplyAll(d, effect.script);
      && effect.memory == memory && effect.reply.Swept?
      && (forall id :: id in effect.reply.ids <==> id in d.rows && d.rows[id].state == Submitted)
      && (forall i, j | 0 <= i < j < |effect.reply.ids| :: effect.reply.ids[i] != effect.reply.ids[j])
      && InOrderOf(d.order, effect.reply.ids)
      && SweptRows(d, d') && d'.book == d.book
      && (forall id | id !in effect.reply.ids :: ViewOf(cfg.secret, d', id) == ViewOf(cfg.secret, d, id))
      && Sweep(d', memory) == Effect([], memory, Swept([]))
  {
    var w := Run(cfg, steps);
    EveryRunIsGood(cfg, None, steps);
    hide Run, ValidRun, Inv, Ordered, AuditOf, Trail, ApplyAll, SweepScript, InState, SweptRows, InOrderOf;
    SweepViews(cfg, w);
    SweepReturns(cfg, w);
    SweepAgain(cfg, w, memory);
  }

  lemma SweepViews(cfg: Config, w: World)
    requires Inv(cfg, None, w)
    ensures var d, d' := w.d, ApplyAll(w.d, SweepScript(w.d.order, w.d.rows));
      && (forall id :: ViewOf(cfg.secret, d', id) == SweptV(id, ViewOf(cfg.secret, d, id), d.order, d.rows))
      && SweptRows(d, d')
  {
    var script := SweepScript(w.d.order, w.d.rows);
    forall id
      ensures ViewOf(cfg.secret, ApplyAll(w.d, script), id)
          == SweptV(id, ViewOf(cfg.secret, w.d, id), w.d.order, w.d.rows)
    {
      hide Inv, AuditOf, Trail, ApplyAll, SweepScript;
      SweepScriptSafe(cfg, None, w, id);
      RunIsLocal(cfg.secret, w.d, script, id);
    }
    SweepEffectOnRows(cfg, w.d, ApplyAll(w.d, script));
  }

  lemma SweepReturns(cfg: Config, w: World)
    requires Inv(cfg, None, w)
    ensures var ids := RowIds(InState(w.d.order, w.d.rows, Submitted));
      && (forall id :: id in ids <==> id in w.d.rows && w.d.rows[id].state == Submitted)
      && (forall i, j | 0 <= i < j < |ids| :: ids[i] != ids[j])
      && InOrderOf(w.d.order, ids)
  {
    hide InOrderOf;
    forall i | i in w.d.order
      ensures w.d.rows[i].id == i
    {
      RowIsNamed(cfg, None, w, i);
    }
    InStateMeans(w.d.order, w.d.rows, Submitted);
    InStateIsInOrder(w.d.order, w.d.rows, Submitted);
  }

  lemma SweepAgain(cfg: Config, w: World, memory: BankMemory)
    requires Inv(cfg, None, w)
    ensures var d' := ApplyAll(w.d, SweepScript(w.d.order, w.d.rows));
      d'.book == w.d.book && Sweep(d', memory) == Effect([], memory, Swept([]))
  {
    var script := SweepScript(w.d.order, w.d.rows);
    var d' := ApplyAll(w.d, script);
    SweepViews(cfg, w);
    SweepFilesNothing(w.d.order, w.d.rows);
    FilesNothing(w.d, script);
    NothingToSweep(d'.order, d'.rows);
    assert RowIds(InState(d'.order, d'.rows, Submitted)) == [];
  }

  lemma SweepEffectOnRows(cfg: Config, d: Durable, d': Durable)
    requires Ordered(d)
    requires forall id :: ViewOf(cfg.secret, d', id) == SweptV(id, ViewOf(cfg.secret, d, id), d.order, d.rows)
    ensures SweptRows(d, d')
  {
    forall id
      ensures Lookup(d'.rows, id)
           == if id in d.rows && d.rows[id].state == Submitted then Some(d.rows[id].(state := Unknown))
              else Lookup(d.rows, id)
    {
      assert ViewOf(cfg.secret, d', id) == SweptV(id, ViewOf(cfg.secret, d, id), d.order, d.rows);
    }
    forall id
      ensures id in d'.rows.Keys <==> id in d.rows.Keys
    {
      assert Lookup(d'.rows, id).Some? <==> Lookup(d.rows, id).Some?;
    }
  }

  lemma OthersUntouched(cfg: Config, w: World, ws: seq<Write>, id: Id, other: Id)
    requires Inv(cfg, None, w) && AllAbout(ws, id) && other != id
    ensures ViewOf(cfg.secret, ApplyAll(w.d, ws), other) == ViewOf(cfg.secret, w.d, other)
  {
    var env := EnvAt(cfg, None, w.now);
    assert Good(env, other, ViewOf(cfg.secret, w.d, other));
    SafeForeign(env, other, ViewOf(cfg.secret, w.d, other), ws);
    RunIsLocal(cfg.secret, w.d, ws, other);
  }

  lemma ReconcileStores(cfg: Config, w: World, id: Id)
    requires Inv(cfg, None, w) && id in w.d.rows && w.d.rows[id].state == Unknown
    ensures var d' := ApplyAll(w.d, ReconcileScript(w.d.rows[id], Lookup(w.d.book, id)));
      id in d'.rows && d'.rows[id] == ReconciledRow(w.d.rows[id], Lookup(w.d.book, id))
  {
    var env, v := EnvAt(cfg, None, w.now), ViewOf(cfg.secret, w.d, id);
    var script := ReconcileScript(w.d.rows[id], Lookup(w.d.book, id));
    assert Good(env, id, v);
    ReconcileSafe(env, v, w.d.rows[id]);
    StoredAfter(env, w.d, id, script, RunV(cfg.secret, id, v, script));
  }

  lemma ReconciledStatus(cfg: Config, r: Row, receipt: Option<Receipt>)
    requires r.state == Unknown && r.receipt.None?
    ensures var settled, reply := ReconciledRow(r, receipt), StatusOf(cfg, ReconciledRow(r, receipt), false);
      && settled.id == r.id && settled.receipt == receipt
      && settled.state == (if receipt.Some? then Completed else Failed)
      && reply.Outcome? && reply.status == Settled(settled.state)
  {
  }

  /** In any reachable state, whoever of its customer asks, an UNKNOWN intent reconciles
      to COMPLETED with the bank's receipt exactly when the book has its key and to
      FAILED otherwise; book, balances and every other intent stay as they were. */
  lemma ReconcileSettles(cfg: Config, steps: seq<Step>, memory: BankMemory, ctx: Context, id: Id)
    requires ValidRun(cfg, None, steps)
    requires var d := Run(cfg, steps).d;
      id in d.rows && d.rows[id].state == Unknown && d.rows[id].context.customer == ctx.customer
    ensures var d := Run(cfg, steps).d;
      var effect := ReconcilePix(cfg, d, memory, ctx, id);
      var d' := ApplyAll(d, effect.script);
      && id in d'.rows
      && d'.rows[id].state == (if id in d.book then Completed else Failed)
      && d'.rows[id].receipt == Lookup(d.book, id)
      && effect.reply.Outcome? && effect.reply.status == Settled(d'.rows[id].state)
      && effect.memory == memory && d'.book == d.book
      && (forall other | other != id :: ViewOf(cfg.secret, d', other) == ViewOf(cfg.secret, d, other))
  {
    var w := Run(cfg, steps);
    var r := w.d.rows[id];
    var script := ReconcileScript(r, Lookup(w.d.book, id));
    GoodAt(cfg, None, steps, id);
    ReconciledStatus(cfg, r, Lookup(w.d.book, id));
    ReconcileQuiet(r, Lookup(w.d.book, id));
    hide Run, Inv, Good, Trail, AuditOf, ApplyAll, StatusOf, ReconciledRow, ReconcileScript;
    ReconcileStores(cfg, w, id);
    FilesNothing(w.d, script);
    forall other | other != id
      ensures ViewOf(cfg.secret, ApplyAll(w.d, script), other) == ViewOf(cfg.secret, w.d, other)
    {
      OthersUntouched(cfg, w, script, id, other);
    }
  }

  // ---------------------------------------------------------------- replay

  /** Folding a trail's transitions over the table, from CREATED; `None` if one does not fit. */
  function Replay(trail: seq<Entry>): Option<State> {
    if trail == [] then Some(Created)
    else
      var before, last := Replay(trail[..|trail| - 1]), trail[|trail| - 1];
      if !last.Transition? then before
      else if before == Some(last.from) && Target(last.from, last.hop) == Some(last.to) then Some(last.to)
      else None
  }

  lemma {:induction false} ReplayIsAudited(secret: string, trail: seq<Entry>)
    ensures AuditOf(secret, trail).replay == Replay(trail)
  {
    if trail != [] {
      ReplayIsAudited(secret, trail[..|trail| - 1]);
    }
  }

  /** A step of the in-memory system: the only crash that leaves the store behind is one
      inside the bank call of an accepted confirmation, before or after it paid. */
  ghost predicate MemoryStep(cfg: Config, w: World, s: Step) {
    s.Crashed? ==>
      && Accepted(cfg, w.d, s.op)
      && var call := |ConsentScript(ByToken(w.d, s.op.token).value, s.op.ctx, s.op.token, s.op.t2)|;
        s.after == call || (s.after == call + 1 && BankPays(cfg, w, s.op))
  }

  predicate BankPays(cfg: Config, w: World, op: Op)
    requires Accepted(cfg, w.d, op)
  {
    var r := SubmittedRow(ByToken(w.d, op.token).value, op.ctx, op.t2);
    BankCall(cfg, w.d, MemoryOf(cfg, w, PrincipalOn(op)), r, op.payment).filed.Some?
  }

  ghost predicate MemoryRun(cfg: Config, steps: seq<Step>) {
    steps != [] ==>
      var before := steps[..|steps| - 1];
      MemoryRun(cfg, before) && MemoryStep(cfg, Run(cfg, before), steps[|steps| - 1])
  }

  lemma CrashInBankView(env: Env, v: View, r: Row, ctx: Context, token: Id, at: Instant, filed: Option<Receipt>,
                        rest: seq<Write>, k: nat)
    requires Good(env, r.id, v) && v.row == Some(r) && r.state == AwaitingConfirmation && InStep(v)
    requires r.token == Some(token) && OwnerOf(r) == PrincipalOf(ctx) && DigestMatches(env.cfg, r)
    requires filed.Some? ==> v.booked.None? && MatchesAction(filed.value, r.action)
    requires k == |ConsentScript(r, ctx, token, at)| || (filed.Some? && k == |ConsentScript(r, ctx, token, at)| + 1)
    ensures var script := ConsentScript(r, ctx, token, at) + (FileScript(r.id, filed) + rest);
      k <= |script| && InStep(RunV(env.cfg.secret, r.id, v, script[..k]))
  {
    var consent, file := ConsentScript(r, ctx, token, at), FileScript(r.id, filed);
    var script, v1 := consent + (file + rest), SubmittedV(v, r, ctx, at);
    ConsentScriptSafe(env, v, r, ctx, token, at);
    if k == |consent| {
      assert script[..k] == consent;
    } else {
      FileSafe(env, v1, SubmittedRow(r, ctx, at), filed);
      TakesConcat(env, r.id, v, consent, v1, file, FiledV(v1, filed));
      assert script[..k] == consent + file;
    }
  }

  lemma CrashInBankIsInStep(cfg: Config, w: World, s: Step)
    requires Inv(cfg, None, w) && Allowed(None, w, s) && s.Crashed? && MemoryStep(cfg, w, s)
    requires InStep(ViewOf(cfg.secret, w.d, ByToken(w.d, s.op.token).value.id))
    ensures InStep(ViewOf(cfg.secret, Next(cfg, w, s).d, ByToken(w.d, s.op.token).value.id))
  {
    hide Inv, InStep, ApplyAll, RunV, DrawsFreshIds;
    var op := s.op;
    var r := ByToken(w.d, op.token).value;
    FoundRow(cfg, None, w, op.token);
    GoodInOp(cfg, None, w, op, r.id);
    var submitted := SubmittedRow(r, op.ctx, op.t2);
    var call := BankCall(cfg, w.d, MemoryOf(cfg, w, PrincipalOn(op)), submitted, op.payment);
    CrashInBankView(OpEnv(cfg, None, w, op), ViewOf(cfg.secret, w.d, r.id), r, op.ctx, op.token, op.t2,
                    call.filed, SettleScript(submitted, call.answer), s.after);
    RunIsLocal(cfg.secret, w.d, EffectIn(cfg, w, op).script[..s.after], r.id);
  }

  lemma MemoryStepInStep(cfg: Config, w: World, s: Step, id: Id)
    requires Inv(cfg, None, w) && Allowed(None, w, s) && MemoryStep(cfg, w, s)
    requires InStep(ViewOf(cfg.secret, w.d, id))
    ensures InStep(ViewOf(cfg.secret, Next(cfg, w, s).d, id))
  {
    match s
    case Done(op) =>
      OpSafe(cfg, None, w, op, id);
      RunIsLocal(cfg.secret, w.d, EffectIn(cfg, w, op).script, id);
    case Crashed(op, _) =>
      if id == ByToken(w.d, op.token).value.id {
        CrashInBankIsInStep(cfg, w, s);
      } else {
        StrandedElsewhere(cfg, w, s, id);
      }
    case _ =>
  }

  lemma {:induction false} MemoryRunInStep(cfg: Config, steps: seq<Step>, id: Id)
    requires ValidRun(cfg, None, steps) && MemoryRun(cfg, steps)
    ensures InStep(ViewOf(cfg.secret, Run(cfg, steps).d, id))
  {
    if steps != [] {
      var before := steps[..|steps| - 1];
      MemoryRunInStep(cfg, before, id);
      EveryRunIsGood(cfg, None, before);
      MemoryStepInStep(cfg, Run(cfg, before), steps[|steps| - 1], id);
    }
  }

  /** In every reachable state of the in-memory system, a crash inside the bank call
      included, replaying an intent's transitions from CREATED gives its current state. */
  lemma LedgerReplaysTheState(cfg: Config, steps: seq<Step>, id: Id)
    requires ValidRun(cfg, None, steps) && MemoryRun(cfg, steps)
    ensures var d := Run(cfg, steps).d; id in d.rows ==> Replay(Trail(d.ledger, id)) == Some(d.rows[id].state)
  {
    MemoryRunInStep(cfg, steps, id);
    ReplayIsAudited(cfg.secret, Trail(Run(cfg, steps).d.ledger, id));
  }

  ghost predicate ArrivesAt(e: Entry, s: State) {
    e.Transition? && e.to == s
  }

  ghost predicate OnTable(e: Entry) {
    e.Transition? ==> Target(e.from, e.hop) == Some(e.to)
  }

  lemma {:induction false} LawIsAudited(secret: string, trail: seq<Entry>)
    ensures AuditOf(secret, trail).lawful <==> forall i | 0 <= i < |trail| :: OnTable(trail[i])
  {
    if trail != [] {
      var before := trail[..|trail| - 1];
      LawIsAudited(secret, before);
      assert forall i | 0 <= i < |before| :: before[i] == trail[i];
    }
  }

  lemma ReachObserved(secret: string, a: Audit, e: Entry, s: State)
    ensures s in Observe(secret, a, e).reached <==> s in a.reached || ArrivesAt(e, s)
  {
  }

  lemma {:induction false} ReachIsAudited(secret: string, trail: seq<Entry>, s: State)
    ensures s in AuditOf(secret, trail).reached <==> exists i | 0 <= i < |trail| :: ArrivesAt(trail[i], s)
  {
    if trail != [] {
      var before, last := trail[..|trail| - 1], trail[|trail| - 1];
      ReachObserved(secret, AuditOf(secret, before), last, s);
      hide Observe;
      ReachIsAudited(secret, before, s);
      assert forall i | 0 <= i < |before| :: before[i] == trail[i];
      if s in AuditOf(secret, before).reached {
        var i :| 0 <= i < |before| && ArrivesAt(before[i], s);
        assert ArrivesAt(trail[i], s);
      } else if ArrivesAt(last, s) {
        assert ArrivesAt(trail[|trail| - 1], s);
      }
    }
  }

  lemma StateIsReached(env: Env, d: Durable, id: Id)
    requires id in d.rows && Good(env, id, ViewOf(env.cfg.secret, d, id))
    ensures var audit := AuditOf(env.cfg.secret, Trail(d.ledger, id));
      audit.lawful && (d.rows[id].state == Created || d.rows[id].state in audit.reached)
  {
    hide Trail, AuditOf;
  }

  /** Over the durable store, with crashes anywhere, every transition on record is an edge
      of the table and the stored state is CREATED or the target of one of them. */
  lemma LedgerNeverLies(cfg: Config, steps: seq<Step>, id: Id)
    requires ValidRun(cfg, None, steps) && id in Run(cfg, steps).d.rows
    ensures var d := Run(cfg, steps).d;
      var trail := Trail(d.ledger, id);
      && (forall i | 0 <= i < |trail| :: OnTable(trail[i]))
      && (d.rows[id].state == Created || exists i | 0 <= i < |trail| :: ArrivesAt(trail[i], d.rows[id].state))
  {
    hide Good, Run, Trail, AuditOf, Inv, ValidRun, OnTable, ArrivesAt, ViewOf;
    var d := Run(cfg, steps).d;
    GoodAt(cfg, None, steps, id);
    StateIsReached(EnvAt(cfg, None, Run(cfg, steps).now), d, id);
    LawIsAudited(cfg.secret, Trail(d.ledger, id));
    ReachIsAudited(cfg.secret, Trail(d.ledger, id), d.rows[id].state);
  }
}
