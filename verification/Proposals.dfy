/** From what was proposed to what is paid: where a token comes from, what policy knew when
    it was issued, and whether the payment is still the one that was asked for. */
module Proposals {
  import opened Actions
  import opened Policy
  import opened Machine
  import opened Bank
  import opened Plane
  import opened Audit
  import opened Intents
  import opened Serial
  import opened Guarantees
  import opened Lifetimes
  import opened Answers

  // ---------------------------------------------------------------- the step that issues a token

  function TokenStored(d: Durable, id: Id): Option<Id> {
    if id in d.rows then d.rows[id].token else None
  }

  predicate Tokenless(ws: seq<Write>) {
    forall x | x in ws && x.Put? :: x.row.token.None?
  }

  lemma {:induction false} TokenlessKeeps(d: Durable, ws: seq<Write>, id: Id)
    requires Tokenless(ws) && TokenStored(d, id).None?
    ensures TokenStored(ApplyAll(d, ws), id).None?
    decreases |ws|
  {
    if ws != [] {
      assert ws[0] in ws && forall x | x in ws[1..] :: x in ws;
      TokenlessKeeps(Apply(d, ws[0]), ws[1..], id);
    }
  }

  lemma DecideIssuesLast(cfg: Config, r: Row, memory: BankMemory, token: Id, t1: Instant, t2: Instant)
    requires r.state == Validated && r.token.None?
    ensures var script := Decide(cfg, r, memory, token, t1, t2).0; script != [] && Tokenless(script[..|script| - 1])
  {
    hide VerdictOn, RiskOf;
  }

  lemma ProposeIssuesLast(cfg: Config, memory: BankMemory, op: Op)
    requires op.ProposeOp?
    ensures var script := Propose(cfg, memory, op.ctx, op.proposed, op.text, op.id, op.token, op.t1, op.t2).script;
      script != [] && Tokenless(script[..|script| - 1])
  {
    hide FindContacts, Decide, MissingPreconditions;
    var matches := FindContacts(cfg.contacts, op.proposed.recipient);
    if |matches| == 1 {
      var validated := Moved(Proposed(op.ctx, op.proposed, op.id, matches[0].id), Validate);
      DecideIssuesLast(cfg, validated, memory, op.token, op.t1, op.t2);
    }
  }

  lemma StepUpIssuesLast(cfg: Config, r: Row, memory: BankMemory, op: Op)
    requires op.StepUpOp? && r.state == AwaitingStepUp && r.token.None?
    ensures var script := StepUpBody(cfg, r, memory, op.token, op.t1, op.t2).0;
      script != [] && Tokenless(script[..|script| - 1])
  {
    hide Decide;
    DecideIssuesLast(cfg, Moved(Strengthened(r), StepUp), memory, op.token, op.t1, op.t2);
  }

  /** After this step the intent has a token, and before it had none. */
  predicate IssuesNow(cfg: Config, w: World, s: Step, id: Id) {
    TokenStored(w.d, id).None? && TokenStored(Next(cfg, w, s).d, id).Some?
  }

  predicate MayIssue(op: Op) {
    op.ProposeOp? || op.StepUpOp?
  }

  lemma OnlyTheLastWriteIssues(cfg: Config, w: World, op: Op, k: nat)
    requires Inv(cfg, None, w) && MayIssue(op) && TokenStored(w.d, op.id).None?
    requires k < |EffectIn(cfg, w, op).script|
    ensures TokenStored(ApplyAll(w.d, EffectIn(cfg, w, op).script[..k]), op.id).None?
  {
    hide Inv, Propose, StepUpBody, ApplyAll, StatusOf;
    var script, memory := EffectIn(cfg, w, op).script, MemoryOf(cfg, w, PrincipalOn(op));
    if op.ProposeOp? {
      ProposeIssuesLast(cfg, memory, op);
    } else {
      RowIsSound(cfg, w, op.id);
      StepUpIssuesLast(cfg, w.d.rows[op.id], memory, op);
    }
    assert forall x | x in script[..k] :: x in script[..|script| - 1] by {
      assert script[..k] <= script[..|script| - 1];
    }
    TokenlessKeeps(w.d, script[..k], op.id);
  }

  lemma PrefixIssues(cfg: Config, w: World, op: Op, k: nat, id: Id)
    requires Inv(cfg, None, w) && Allowed(None, w, Done(op)) && k <= |EffectIn(cfg, w, op).script|
    requires TokenStored(w.d, id).None?
    requires TokenStored(ApplyAll(w.d, EffectIn(cfg, w, op).script[..k]), id).Some?
    ensures MayIssue(op) && op.id == id && k == |EffectIn(cfg, w, op).script|
  {
    PrefixAdvances(cfg, None, w, op, k, id);
    hide Inv, EffectIn, ApplyAll, Good, DrawsFreshIds;
    if k < |EffectIn(cfg, w, op).script| {
      OnlyTheLastWriteIssues(cfg, w, op, k);
    }
  }

  /** A token is issued by a proposal or a step-up of the intent, with its last write. */
  lemma IssueIsWhole(cfg: Config, w: World, s: Step, id: Id)
    requires Inv(cfg, None, w) && Allowed(None, w, s) && IssuesNow(cfg, w, s, id)
    ensures (s.Done? || s.Crashed?) && MayIssue(s.op) && s.op.id == id
    ensures Next(cfg, w, s).d == Next(cfg, w, Done(s.op)).d
  {
    hide Inv, EffectIn, ApplyAll, DrawsFreshIds;
    match s
    case Done(op) =>
      var script := EffectIn(cfg, w, op).script;
      assert script[..|script|] == script;
      PrefixIssues(cfg, w, op, |script|, id);
    case Crashed(op, after) =>
      var script := EffectIn(cfg, w, op).script;
      PrefixIssues(cfg, w, op, CrashPoint(script, after), id);
      assert script[..|script|] == script;
    case _ =>
  }

  /** Above R$ 1 000, or two of: a recipient never paid, above R$ 500, a device not trusted. */
  predicate NeedsStrong(action: CreatePix, ctx: Context, known: set<string>) {
    || action.amount > 1_000_00
    || AnyTwo(action.recipient !in known, action.amount > 500_00, !ctx.deviceTrusted)
  }

  /** The token is the one just drawn, against the digest of the stored action; and policy,
      with what the conversation's bank knew then, let that action through in that context. */
  ghost predicate IssuedRightly(cfg: Config, w: World, op: Op, r: Row)
    requires MayIssue(op)
  {
    var action, ctx, known := r.action, r.context, MemoryOf(cfg, w, PrincipalOf(op.ctx)).paidBefore;
    && r.state == AwaitingConfirmation && r.token == Some(op.token) && r.issuedAt == Some(op.t2)
    && r.digest == Some(Digest(cfg.secret, action))
    && action.amount <= 5_000_00 && (action.amount > 1_000_00 ==> !ByNight(op.t1))
    && ctx.assurance != Low
    && (NeedsStrong(action, ctx, known) ==> ctx.assurance == Strong)
  }

  /** The action is the one proposed, or, after a step-up, the one stored until then. */
  ghost predicate IssuedFor(cfg: Config, w: World, op: Op, r: Row)
    requires MayIssue(op)
  {
    && (op.StepUpOp? ==>
          op.id in w.d.rows && r.action == w.d.rows[op.id].action
          && r.context == w.d.rows[op.id].context.(assurance := Strong))
    && (op.ProposeOp? ==>
          op.id !in w.d.rows && r.context == op.ctx
          && exists c :: MatchesAre(cfg.contacts, op.proposed.recipient, [c])
                         && r.action == CreatePix("checking_001", c.id, op.proposed.amount))
  }

  lemma DecidedIssue(cfg: Config, w: World, d': Durable, r: Row, op: Op, before: seq<Entry>, reply: Reply)
    requires MayIssue(op)
    requires DecidedRightly(cfg, w.d, d', r, MemoryOf(cfg, w, PrincipalOf(op.ctx)).paidBefore, op, before, reply)
    requires r.token.None? && r.id == op.id && TokenStored(d', op.id).Some?
    ensures IssuedRightly(cfg, w, op, d'.rows[op.id])
    ensures d'.rows[op.id].action == r.action && d'.rows[op.id].context == r.context
  {
    hide Tells, AssessedRightly, DecidedEntries, ByNight;
  }

  lemma StepUpIssue(cfg: Config, w: World, op: Op)
    requires Inv(cfg, None, w) && op.StepUpOp? && IssuesNow(cfg, w, Done(op), op.id)
    ensures var r := Next(cfg, w, Done(op)).d.rows[op.id]; IssuedRightly(cfg, w, op, r) && IssuedFor(cfg, w, op, r)
  {
    hide Inv, DecidedRightly, Tells, ApplyAll, StepUpBody, StatusOf, IssuedRightly;
    NoWrites(w.d);
    assert Refers(w.d, op);
    StepUpIsRight(cfg, w, op);
    RowIsSound(cfg, w, op.id);
    var r := w.d.rows[op.id];
    var validated := r.(context := r.context.(assurance := Strong), state := Validated);
    DecidedIssue(cfg, w, Next(cfg, w, Done(op)).d, validated, op,
                 [SteppedUp, Transition(AwaitingStepUp, StepUp, Validated, None, None)], EffectIn(cfg, w, op).reply);
  }

  lemma ProposalIssue(cfg: Config, w: World, op: Op)
    requires Inv(cfg, None, w) && op.ProposeOp? && FreshId(w.d, op.id) && IssuesNow(cfg, w, Done(op), op.id)
    ensures var r := Next(cfg, w, Done(op)).d.rows[op.id]; IssuedRightly(cfg, w, op, r) && IssuedFor(cfg, w, op, r)
  {
    hide Inv, DecidedRightly, Tells, ApplyAll, StatusOf, IssuedRightly, MatchesAre, Heard, Leaves, Lacking, Stamped;
    hide EffectIn, Next, MemoryOf;
    ProposalIsRight(cfg, w, op);
    var w', memory, reply := Next(cfg, w, Done(op)), MemoryOf(cfg, w, PrincipalOf(op.ctx)), EffectIn(cfg, w, op).reply;
    var matches: seq<Contact> :| MatchesAre(cfg.contacts, op.proposed.recipient, matches)
      && if |matches| == 1 then CanonicallyRight(cfg, w.d, w'.d, memory, op, matches[0].id, Heard(op, matches), reply)
         else w'.d.rows == w.d.rows;
    assert matches == [matches[0]];
    var row := CanonicalRow(op, matches[0].id, Validated);
    if Lacking(memory.accounts, op.proposed.amount) != [] {
      RejectedHasNoToken(w.d, w'.d, op, matches[0].id,
                         Heard(op, matches) + [CanonicalAction(row.action),
                                               Transition(Created, Reject, Cancelled, None, None)]);
    } else {
      DecidedIssue(cfg, w, w'.d, row, op,
                   Heard(op, matches) + [CanonicalAction(row.action),
                                         Transition(Created, Validate, Validated, None, None)], reply);
    }
  }

  lemma RejectedHasNoToken(d: Durable, d': Durable, op: Op, recipient: Id, entries: seq<Entry>)
    requires op.ProposeOp? && Leaves(d, d', CanonicalRow(op, recipient, Cancelled), entries)
    ensures TokenStored(d', op.id).None?
  {
  }

  /** Where a token comes from, what policy knew, and what it was issued for. */
  lemma IssueIsRight(cfg: Config, w: World, s: Step, id: Id)
    requires Inv(cfg, None, w) && Allowed(None, w, s) && IssuesNow(cfg, w, s, id)
    ensures (s.Done? || s.Crashed?) && MayIssue(s.op) && s.op.id == id
    ensures var r := Next(cfg, w, s).d.rows[id]; IssuedRightly(cfg, w, s.op, r) && IssuedFor(cfg, w, s.op, r)
  {
    IssueIsWhole(cfg, w, s, id);
    hide Inv, Next, IssuedRightly, IssuedFor;
    if s.op.ProposeOp? {
      ProposalIssue(cfg, w, s.op);
    } else {
      StepUpIssue(cfg, w, s.op);
    }
  }

  // ---------------------------------------------------------------- what policy knew of a payment

  /** The step of the run at which the intent's token was issued. */
  ghost predicate IssueAt(cfg: Config, steps: seq<Step>, n: nat, id: Id) {
    n < |steps| && IssuesNow(cfg, Run(cfg, steps[..n]), steps[n], id)
  }

  lemma PrefixRun(cfg: Config, steps: seq<Step>, n: nat)
    requires ValidRun(cfg, None, steps) && n < |steps|
    ensures var w := Run(cfg, steps[..n]);
      && Inv(cfg, None, w) && Allowed(None, w, steps[n]) && Run(cfg, steps[..n + 1]) == Next(cfg, w, steps[n])
  {
    RunEvolves(cfg, steps, n + 1, "");
    RunEvolves(cfg, steps, n, "");
    assert steps[..n + 1][..n] == steps[..n] && steps[..n + 1][n] == steps[n];
    EveryRunIsGood(cfg, None, steps[..n]);
  }

  lemma {:induction false} TokenWasIssued(cfg: Config, steps: seq<Step>, id: Id) returns (n: nat)
    requires ValidRun(cfg, None, steps) && TokenStored(Run(cfg, steps).d, id).Some?
    ensures IssueAt(cfg, steps, n, id)
    decreases |steps|
  {
    var before := steps[..|steps| - 1];
    if TokenStored(Run(cfg, before).d, id).Some? {
      n := TokenWasIssued(cfg, before, id);
      assert before[..n] == steps[..n];
    } else {
      n := |steps| - 1;
    }
  }

  /** What the digest of an issued token is of stays what it was, and so does the rest. */
  lemma IssuedStays(cfg: Config, steps: seq<Step>, n: nat, id: Id)
    requires ValidRun(cfg, None, steps) && n <= |steps| && TokenStored(Run(cfg, steps[..n]).d, id).Some?
    ensures var r, d' := Run(cfg, steps[..n]).d.rows[id], Run(cfg, steps).d;
      && id in d'.rows && d'.rows[id].token == r.token && d'.rows[id].digest == r.digest
      && (d'.rows[id].context == r.context || d'.rows[id].context == r.context.(assurance := Strong))
  {
    RunEvolves(cfg, steps, n, id);
    hide Run, ValidRun, Trail, AuditOf;
  }

  /** Step `n` issued the token the payment was made on, and policy let the payment through
      there: at most R$ 5 000, above R$ 1 000 not by night, and where two of the signals held
      of it, by what the bank of the conversation knew then, or above R$ 1 000, the intent has
      strong assurance. */
  ghost predicate PaidAsAssessed(cfg: Config, steps: seq<Step>, n: nat, id: Id) {
    var d := Run(cfg, steps).d;
    && IssueAt(cfg, steps, n, id) && (steps[n].Done? || steps[n].Crashed?) && MayIssue(steps[n].op)
    && id in d.book && id in d.rows && d.rows[id].token == Some(steps[n].op.token)
    && var op, amount, recipient, ctx := steps[n].op, d.book[id].amount, d.book[id].recipient, d.rows[id].context;
       var known := MemoryOf(cfg, Run(cfg, steps[..n]), PrincipalOf(op.ctx)).paidBefore;
    && amount <= 5_000_00 && (amount > 1_000_00 ==> !ByNight(op.t1))
    && ctx.assurance != Low
    && (amount > 1_000_00 ==> ctx.assurance == Strong)
    && (AnyTwo(recipient !in known, amount > 500_00, !ctx.deviceTrusted) ==> ctx.assurance == Strong)
  }

  lemma PaymentMatchesDigest(cfg: Config, steps: seq<Step>, id: Id)
    requires ValidRun(cfg, None, steps) && id in Run(cfg, steps).d.book
    ensures var d := Run(cfg, steps).d;
      && id in d.rows && d.rows[id].token.Some? && d.rows[id].digest.Some?
      && MatchesAction(d.book[id], d.rows[id].digest.value.action)
  {
    hide Run, ValidRun, ConsentTrail;
    PaymentsWereConsented(cfg, steps, id);
  }

  lemma PaymentsWereAssessed(cfg: Config, steps: seq<Step>, id: Id)
    requires ValidRun(cfg, None, steps) && id in Run(cfg, steps).d.book
    ensures exists n: nat :: PaidAsAssessed(cfg, steps, n, id)
  {
    PaymentMatchesDigest(cfg, steps, id);
    var n := TokenWasIssued(cfg, steps, id);
    PaymentIsAsIssued(cfg, steps, n, id);
    hide Run, ValidRun, IssuesNow, ByNight, TokenStored;
    assert PaidAsAssessed(cfg, steps, n, id);
  }

  lemma PaymentIsAsIssued(cfg: Config, steps: seq<Step>, n: nat, id: Id)
    requires ValidRun(cfg, None, steps) && id in Run(cfg, steps).d.book && IssueAt(cfg, steps, n, id)
    ensures (steps[n].Done? || steps[n].Crashed?) && MayIssue(steps[n].op) && steps[n].op.id == id
    ensures id in Run(cfg, steps[..n + 1]).d.rows
    ensures var d, issued := Run(cfg, steps).d, Run(cfg, steps[..n + 1]).d.rows[id];
      && id in d.rows && d.rows[id].token == issued.token && d.rows[id].digest == issued.digest
      && IssuedRightly(cfg, Run(cfg, steps[..n]), steps[n].op, issued)
      && IssuedFor(cfg, Run(cfg, steps[..n]), steps[n].op, issued)
      && MatchesAction(d.book[id], issued.action)
      && (d.rows[id].context == issued.context || d.rows[id].context == issued.context.(assurance := Strong))
  {
    PrefixRun(cfg, steps, n);
    IssueIsRight(cfg, Run(cfg, steps[..n]), steps[n], id);
    IssuedStays(cfg, steps, n + 1, id);
    PaymentMatchesDigest(cfg, steps, id);
    hide Run, ValidRun, Inv, Next, ByNight, DrawsFreshIds, IssuedFor;
  }

  // ---------------------------------------------------------------- the trail tells what was proposed

  /** A trail that opens with what was understood and the one contact it was resolved to. */
  ghost predicate HeardOf(contacts: seq<Contact>, trail: seq<Entry>) {
    && |trail| > 2 && trail[0].Request? && trail[1].Interpreted? && trail[2].Resolution?
    && trail[2].query == trail[1].proposed.recipient
    && exists c :: MatchesAre(contacts, trail[2].query, [c]) && trail[2].matches == [c.id]
  }

  /** The payment the trail asks for: what was proposed, to the contact found, from the one account. */
  function Asked(trail: seq<Entry>): CreatePix
    requires |trail| > 2 && trail[1].Interpreted? && trail[2].Resolution? && trail[2].matches != []
  {
    CreatePix("checking_001", trail[2].matches[0], trail[1].proposed.amount)
  }

  lemma {:induction false} TrailOnlyGrows(d: Durable, ws: seq<Write>, id: Id)
    ensures Trail(d.ledger, id) <= Trail(ApplyAll(d, ws).ledger, id)
    decreases |ws|
  {
    if ws != [] {
      if ws[0].Append? {
        TrailAppend(d.ledger, Event(ws[0].id, ws[0].entry), id);
      }
      TrailOnlyGrows(Apply(d, ws[0]), ws[1..], id);
    }
  }

  lemma HeardStays(contacts: seq<Contact>, trail: seq<Entry>, trail': seq<Entry>)
    requires HeardOf(contacts, trail) && trail <= trail'
    ensures HeardOf(contacts, trail') && Asked(trail') == Asked(trail)
  {
    hide MatchesAre;
    assert trail'[0] == trail[0] && trail'[1] == trail[1] && trail'[2] == trail[2];
  }

  predicate Carry(ws: seq<Write>, action: CreatePix) {
    forall x | x in ws && x.Put? :: x.row.action == action
  }

  lemma {:induction false} CarriedIsStored(d: Durable, ws: seq<Write>, id: Id, action: CreatePix)
    requires Carry(ws, action) && (id in d.rows ==> d.rows[id].action == action)
    ensures id in ApplyAll(d, ws).rows ==> ApplyAll(d, ws).rows[id].action == action
    decreases |ws|
  {
    if ws != [] {
      assert ws[0] in ws && forall x | x in ws[1..] :: x in ws;
      CarriedIsStored(Apply(d, ws[0]), ws[1..], id, action);
    }
  }

  lemma DecideCarries(cfg: Config, r: Row, memory: BankMemory, token: Id, t1: Instant, t2: Instant)
    requires r.state == Validated
    ensures Carry(Decide(cfg, r, memory, token, t1, t2).0, r.action)
  {
    hide VerdictOn, RiskOf;
  }

  lemma ProposeCarries(cfg: Config, row: Row, memory: BankMemory, token: Id, t1: Instant, t2: Instant)
    requires row.state == Created
    ensures Carry(ProposeBody(cfg, row, memory, token, t1, t2).0, row.action)
  {
    hide Decide, MissingPreconditions;
    DecideCarries(cfg, Moved(row, Validate), memory, token, t1, t2);
  }

  /** A row appears in a proposal's own step, resolved to one contact and asking for its payment. */
  lemma NewRowIsHeard(cfg: Config, w: World, op: Op, k: nat)
    requires op.ProposeOp? && FreshId(w.d, op.id) && k <= |EffectIn(cfg, w, op).script|
    requires var d' := ApplyAll(w.d, EffectIn(cfg, w, op).script[..k]); op.id in d'.rows
    ensures var d' := ApplyAll(w.d, EffectIn(cfg, w, op).script[..k]);
      HeardOf(cfg.contacts, Trail(d'.ledger, op.id)) && d'.rows[op.id].action == Asked(Trail(d'.ledger, op.id))
  {
    hide FindContacts, MatchesAre, ProposeBody, HasContact, ApplyAll, Trail, Stamped;
    var script, matches := EffectIn(cfg, w, op).script, FindContacts(cfg.contacts, op.proposed.recipient);
    var head := ProposeHead(op.ctx, op.proposed, op.text, op.id, matches);
    FindContactsMeans(cfg.contacts, op.proposed.recipient);
    HeardEnters(op, matches);
    var d1 := ApplyAll(w.d, head);
    LedgerGrows(w.d, head, op.id);
    TrailOfStamped(w.d.ledger, op.id, Heard(op, matches));
    if k <= 3 {
      assert script[..k] == head[..k];
      AppendsKeepRows(w.d, head[..k]);
    } else {
      var row := Proposed(op.ctx, op.proposed, op.id, matches[0].id);
      var rest := ProposeBody(cfg, row, MemoryOf(cfg, w, PrincipalOn(op)), op.token, op.t1, op.t2).0;
      ProposeCarries(cfg, row, MemoryOf(cfg, w, PrincipalOn(op)), op.token, op.t1, op.t2);
      AppendsKeepRows(w.d, head);
      assert forall x | x in rest[..k - 3] :: x in rest;
      CarriedIsStored(d1, rest[..k - 3], op.id, row.action);
      assert script[..k] == head + rest[..k - 3];
      ApplyAllConcat(w.d, head, rest[..k - 3]);
      TrailOnlyGrows(d1, rest[..k - 3], op.id);
      assert matches == [matches[0]];
      assert Trail(d1.ledger, op.id) == [] + Heard(op, matches) == Heard(op, matches);
      HeardStays(cfg.contacts, Heard(op, matches), Trail(ApplyAll(d1, rest[..k - 3]).ledger, op.id));
    }
  }

  lemma {:induction false} NewRowIsPut(d: Durable, ws: seq<Write>, id: Id)
    requires id !in d.rows && id in ApplyAll(d, ws).rows
    ensures exists x | x in ws :: x.Put? && x.row.id == id
    decreases |ws|
  {
    if id in Apply(d, ws[0]).rows {
      assert ws[0] in ws;
    } else {
      NewRowIsPut(Apply(d, ws[0]), ws[1..], id);
      var x :| x in ws[1..] && x.Put? && x.row.id == id;
      assert x in ws;
    }
  }

  lemma {:induction false} SweptRowsAreOld(order: seq<Id>, rows: map<Id, Row>)
    requires forall i | i in order :: i in rows && rows[i].id == i
    ensures forall x | x in SweepScript(order, rows) :: Subject(x) in rows
  {
    if order != [] {
      assert forall i | i in order[1..] :: i in order;
      SweptRowsAreOld(order[1..], rows);
    }
  }

  lemma SweepIsOfOldRows(cfg: Config, w: World)
    requires Inv(cfg, None, w)
    ensures forall x | x in SweepScript(w.d.order, w.d.rows) :: Subject(x) in w.d.rows
  {
    forall i | i in w.d.order
      ensures i in w.d.rows && w.d.rows[i].id == i
    {
      RowIsNamed(cfg, None, w, i);
    }
    SweptRowsAreOld(w.d.order, w.d.rows);
  }

  lemma OnlyProposalsPutNewRows(cfg: Config, w: World, op: Op, x: Write)
    requires Inv(cfg, None, w) && x in EffectIn(cfg, w, op).script && x.Put? && x.row.id !in w.d.rows
    ensures op.ProposeOp? && op.id == x.row.id
  {
    hide Inv, Propose, StepUpBody, ConfirmRow, ReconcileScript, StatusOf, SweepScript;
    if op.SweepOp? {
      SweepIsOfOldRows(cfg, w);
    } else {
      OneSubject(cfg, None, w, op);
      if (op.ConfirmOp? || op.CancelOp?) && ByToken(w.d, op.token).Some? {
        FoundRow(cfg, None, w, op.token);
      }
    }
  }

  lemma NewRowIsProposed(cfg: Config, w: World, s: Step, id: Id)
    requires Inv(cfg, None, w) && id !in w.d.rows && id in Next(cfg, w, s).d.rows
    ensures (s.Done? || s.Crashed?) && s.op.ProposeOp? && s.op.id == id
  {
    hide Inv, EffectIn, ApplyAll;
    if s.Done? || s.Crashed? {
      var ws, script := WrittenBy(cfg, w, s), EffectIn(cfg, w, s.op).script;
      NewRowIsPut(w.d, ws, id);
      var x :| x in ws && x.Put? && x.row.id == id;
      assert script[..|script|] == script && x in script;
      OnlyProposalsPutNewRows(cfg, w, s.op, x);
    }
  }

  lemma NewRowStep(cfg: Config, w: World, s: Step, id: Id)
    requires Inv(cfg, None, w) && Allowed(None, w, s) && id !in w.d.rows && id in Next(cfg, w, s).d.rows
    ensures var d' := Next(cfg, w, s).d;
      HeardOf(cfg.contacts, Trail(d'.ledger, id)) && d'.rows[id].action == Asked(Trail(d'.ledger, id))
  {
    NewRowIsProposed(cfg, w, s, id);
    hide Inv, EffectIn, ApplyAll, HeardOf, FreshId, FreshToken;
    var script := EffectIn(cfg, w, s.op).script;
    assert script[..|script|] == script;
    NewRowIsHeard(cfg, w, s.op, |WrittenBy(cfg, w, s)|);
  }

  /** What a trail asks for, it asks for ever. */
  lemma AskedStays(cfg: Config, w: World, s: Step, id: Id)
    ensures var trail, trail' := Trail(w.d.ledger, id), Trail(Next(cfg, w, s).d.ledger, id);
      HeardOf(cfg.contacts, trail) ==> HeardOf(cfg.contacts, trail') && Asked(trail') == Asked(trail)
  {
    hide EffectIn, ApplyAll, Trail, HeardOf;
    if s.Done? || s.Crashed? {
      TrailOnlyGrows(w.d, WrittenBy(cfg, w, s), id);
    }
    if HeardOf(cfg.contacts, Trail(w.d.ledger, id)) {
      HeardStays(cfg.contacts, Trail(w.d.ledger, id), Trail(Next(cfg, w, s).d.ledger, id));
    }
  }

  ghost predicate HeardRow(cfg: Config, d: Durable, id: Id) {
    id in d.rows ==> HeardOf(cfg.contacts, Trail(d.ledger, id))
  }

  lemma HeardStep(cfg: Config, w: World, s: Step, id: Id)
    requires Inv(cfg, None, w) && Allowed(None, w, s) && HeardRow(cfg, w.d, id)
    ensures HeardRow(cfg, Next(cfg, w, s).d, id)
  {
    hide HeardOf, Inv, Next, Trail, Allowed;
    if id in w.d.rows {
      AskedStays(cfg, w, s, id);
    } else if id in Next(cfg, w, s).d.rows {
      NewRowStep(cfg, w, s, id);
    }
  }

  lemma {:induction false} EveryRowIsHeard(cfg: Config, steps: seq<Step>, id: Id)
    requires ValidRun(cfg, None, steps)
    ensures HeardRow(cfg, Run(cfg, steps).d, id)
  {
    hide HeardOf;
    if steps != [] {
      var before := steps[..|steps| - 1];
      EveryRowIsHeard(cfg, before, id);
      EveryRunIsGood(cfg, None, before);
      HeardStep(cfg, Run(cfg, before), steps[|steps| - 1], id);
    }
  }

  // ---------------------------------------------------------------- is it still what was proposed

  /** The action a row commits to: the one its token was issued for, until then the stored one. */
  function Committed(r: Row): CreatePix {
    if r.digest.Some? then r.digest.value.action else r.action
  }

  /** The stored action is rewritten while no token fixes it. */
  predicate Rewrites(d: Durable, s: Step, id: Id) {
    s.Tamper? && s.id == id && TokenStored(d, id).None?
  }

  predicate Untouched(cfg: Config, steps: seq<Step>, id: Id) {
    steps != [] ==>
      var before := steps[..|steps| - 1];
      Untouched(cfg, before, id) && !Rewrites(Run(cfg, before).d, steps[|steps| - 1], id)
  }

  lemma DigestComesWithToken(cfg: Config, w: World, id: Id)
    requires Inv(cfg, None, w) && id in w.d.rows
    ensures w.d.rows[id].digest.Some? <==> w.d.rows[id].token.Some?
  {
    assert Good(EnvAt(cfg, None, w.now), id, ViewOf(cfg.secret, w.d, id));
  }

  lemma ActionStays(cfg: Config, w: World, s: Step, id: Id)
    requires Inv(cfg, None, w) && Allowed(None, w, s) && !s.Tamper? && id in w.d.rows
    ensures id in Next(cfg, w, s).d.rows && Next(cfg, w, s).d.rows[id].action == w.d.rows[id].action
  {
    if s.Done? || s.Crashed? {
      var script := EffectIn(cfg, w, s.op).script;
      assert script[..|script|] == script;
      PrefixAdvances(cfg, None, w, s.op, |WrittenBy(cfg, w, s)|, id);
    }
    hide EffectIn, ApplyAll, Trail, AuditOf, Good, Inv;
  }

  lemma CommittedStep(cfg: Config, w: World, s: Step, id: Id)
    requires Inv(cfg, None, w) && Allowed(None, w, s) && id in w.d.rows && !Rewrites(w.d, s, id)
    ensures id in Next(cfg, w, s).d.rows && Committed(Next(cfg, w, s).d.rows[id]) == Committed(w.d.rows[id])
  {
    StepKeepsInv(cfg, None, w, s);
    DigestComesWithToken(cfg, w, id);
    hide Inv, Allowed, Next;
    if w.d.rows[id].token.None? {
      UnissuedActionStays(cfg, w, s, id);
      DigestComesWithToken(cfg, Next(cfg, w, s), id);
      if Next(cfg, w, s).d.rows[id].token.Some? {
        IssueIsRight(cfg, w, s, id);
      }
    } else {
      DigestStays(cfg, w, s, id);
    }
  }

  lemma UnissuedActionStays(cfg: Config, w: World, s: Step, id: Id)
    requires Inv(cfg, None, w) && Allowed(None, w, s) && id in w.d.rows && !Rewrites(w.d, s, id)
    requires w.d.rows[id].token.None?
    ensures id in Next(cfg, w, s).d.rows && Next(cfg, w, s).d.rows[id].action == w.d.rows[id].action
  {
    hide Inv, Allowed, EffectIn, ApplyAll;
    if !s.Tamper? {
      ActionStays(cfg, w, s, id);
    }
  }

  lemma DigestStays(cfg: Config, w: World, s: Step, id: Id)
    requires Inv(cfg, None, w) && Allowed(None, w, s) && id in w.d.rows && w.d.rows[id].token.Some?
    ensures id in Next(cfg, w, s).d.rows && Next(cfg, w, s).d.rows[id].digest == w.d.rows[id].digest
  {
    hide Inv, Allowed, Next, Trail, AuditOf;
    StepEvolves(cfg, w, s, id);
  }

  lemma NewRowCommits(cfg: Config, w: World, s: Step, id: Id)
    requires Inv(cfg, None, w) && Allowed(None, w, s) && id !in w.d.rows && id in Next(cfg, w, s).d.rows
    ensures var d' := Next(cfg, w, s).d;
      HeardOf(cfg.contacts, Trail(d'.ledger, id)) && Committed(d'.rows[id]) == Asked(Trail(d'.ledger, id))
  {
    NewRowStep(cfg, w, s, id);
    StepKeepsInv(cfg, None, w, s);
    hide Inv, Allowed, Next, Trail, HeardOf;
    DigestComesWithToken(cfg, Next(cfg, w, s), id);
    if Next(cfg, w, s).d.rows[id].token.Some? {
      IssueIsRight(cfg, w, s, id);
    }
  }

  /** Left alone until its token is issued, an intent commits to what its trail asks for. */
  lemma {:induction false} CommittedAsAsked(cfg: Config, steps: seq<Step>, id: Id)
    requires ValidRun(cfg, None, steps) && Untouched(cfg, steps, id) && id in Run(cfg, steps).d.rows
    ensures var d := Run(cfg, steps).d;
      HeardOf(cfg.contacts, Trail(d.ledger, id)) && Committed(d.rows[id]) == Asked(Trail(d.ledger, id))
  {
    var before, s := steps[..|steps| - 1], steps[|steps| - 1];
    var w := Run(cfg, before);
    EveryRunIsGood(cfg, None, before);
    if id in w.d.rows {
      CommittedAsAsked(cfg, before, id);
      CommittedStep(cfg, w, s, id);
      AskedStays(cfg, w, s, id);
    } else {
      NewRowCommits(cfg, w, s, id);
    }
  }

  lemma {:induction false} AskedForever(cfg: Config, steps: seq<Step>, n: nat, id: Id)
    requires n <= |steps| && HeardOf(cfg.contacts, Trail(Run(cfg, steps[..n]).d.ledger, id))
    ensures var trail, trail' := Trail(Run(cfg, steps[..n]).d.ledger, id), Trail(Run(cfg, steps).d.ledger, id);
      HeardOf(cfg.contacts, trail') && Asked(trail') == Asked(trail)
    decreases |steps|
  {
    hide HeardOf, Trail, Next;
    if n == |steps| {
      assert steps[..n] == steps;
    } else {
      var before := steps[..|steps| - 1];
      assert before[..n] == steps[..n];
      AskedForever(cfg, before, n, id);
      AskedStays(cfg, Run(cfg, before), steps[|steps| - 1], id);
    }
  }

  /** Every payment's trail opens with what was proposed and the one contact it was resolved to,
      before any hop and so before the issue of its token. Unless the stored action was
      rewritten before then, the payment is of that amount, to that contact, from the one
      account. */
  lemma PaidAsProposed(cfg: Config, steps: seq<Step>, id: Id)
    requires ValidRun(cfg, None, steps) && id in Run(cfg, steps).d.book
    ensures var d := Run(cfg, steps).d;
      var trail := Trail(d.ledger, id);
      && HeardOf(cfg.contacts, trail) && (forall j | 0 <= j < |trail| && trail[j].Transition? :: j > 2)
      && id in d.rows && d.rows[id].digest.Some?
      && (Untouched(cfg, steps, id) ==>
            && d.book[id].amount == trail[1].proposed.amount && [d.book[id].recipient] == trail[2].matches
            && d.rows[id].digest.value.action.source == "checking_001")
  {
    hide Run, ValidRun, Untouched, Trail, MatchesAre;
    PaymentMatchesDigest(cfg, steps, id);
    EveryRowIsHeard(cfg, steps, id);
    if Untouched(cfg, steps, id) {
      CommittedAsAsked(cfg, steps, id);
    }
  }

  /** Stored before the step as the trail asks for it. */
  ghost predicate StoredAsAsked(cfg: Config, w: World, id: Id) {
    && id in w.d.rows && HeardOf(cfg.contacts, Trail(w.d.ledger, id))
    && w.d.rows[id].action == Asked(Trail(w.d.ledger, id))
  }

  /** The token was issued by the proposal itself, or when the stored action still was the one
      asked for. */
  ghost predicate IssuedAsAsked(cfg: Config, steps: seq<Step>, n: nat, id: Id)
    requires IssueAt(cfg, steps, n, id)
  {
    (steps[n].Done? || steps[n].Crashed?) && (steps[n].op.ProposeOp? || StoredAsAsked(cfg, Run(cfg, steps[..n]), id))
  }

  /** ... and it is that exactly when, at the step that issued the token, the stored action
      still was. */
  lemma PaidAsProposedExactly(cfg: Config, steps: seq<Step>, id: Id)
    requires ValidRun(cfg, None, steps) && id in Run(cfg, steps).d.book
    ensures var d := Run(cfg, steps).d;
      var trail := Trail(d.ledger, id);
      && id in d.rows && d.rows[id].digest.Some? && HeardOf(cfg.contacts, trail)
      && exists n: nat :: IssueAt(cfg, steps, n, id)
           && (d.rows[id].digest.value.action == Asked(trail) <==> IssuedAsAsked(cfg, steps, n, id))
  {
    hide Run, ValidRun, IssueAt, IssuedAsAsked, HeardOf, Trail;
    PaymentMatchesDigest(cfg, steps, id);
    var n := TokenWasIssued(cfg, steps, id);
    DigestAtIssue(cfg, steps, n, id);
    IssuedAsAskedMeans(cfg, steps, n, id);
  }

  lemma DigestAtIssue(cfg: Config, steps: seq<Step>, n: nat, id: Id)
    requires ValidRun(cfg, None, steps) && id in Run(cfg, steps).d.book && IssueAt(cfg, steps, n, id)
    ensures id in Run(cfg, steps[..n + 1]).d.rows
    ensures var d := Run(cfg, steps).d;
      id in d.rows && d.rows[id].digest == Some(Digest(cfg.secret, Run(cfg, steps[..n + 1]).d.rows[id].action))
  {
    hide Run, ValidRun, IssuesNow, IssuedFor, ByNight, NeedsStrong;
    PaymentIsAsIssued(cfg, steps, n, id);
  }

  lemma IssuedAsAskedMeans(cfg: Config, steps: seq<Step>, n: nat, id: Id)
    requires ValidRun(cfg, None, steps) && IssueAt(cfg, steps, n, id)
    ensures id in Run(cfg, steps[..n + 1]).d.rows && HeardOf(cfg.contacts, Trail(Run(cfg, steps).d.ledger, id))
    ensures Run(cfg, steps[..n + 1]).d.rows[id].action == Asked(Trail(Run(cfg, steps).d.ledger, id))
       <==> IssuedAsAsked(cfg, steps, n, id)
  {
    var w, w', s := Run(cfg, steps[..n]), Run(cfg, steps[..n + 1]), steps[n];
    PrefixRun(cfg, steps, n);
    IssueIsRight(cfg, w, s, id);
    if id in w.d.rows {
      RunEvolves(cfg, steps, n, id);
      EveryRowIsHeard(cfg, steps[..n], id);
      AskedForever(cfg, steps, n, id);
    } else {
      NewRowStep(cfg, w, s, id);
      AskedForever(cfg, steps, n + 1, id);
    }
    hide Run, ValidRun, Inv, Next, HeardOf, Trail, MatchesAre;
  }

  // ---------------------------------------------------------------- and when it is not

  /** The bank knows the recipient and the account, and the account holds enough. */
  ghost predicate Affordable(cfg: Config, memory: BankMemory, action: CreatePix) {
    Known(cfg.contacts, action.recipient) && action.source in memory.accounts
    && action.amount <= memory.accounts[action.source]
  }

  lemma RewrittenWaits(cfg: Config, steps: seq<Step>, id: Id, action: CreatePix)
    requires ValidRun(cfg, None, steps) && id in Run(cfg, steps).d.rows
    ensures ValidRun(cfg, None, steps + [Tamper(id, action)])
    ensures var w, w' := Run(cfg, steps), Run(cfg, steps + [Tamper(id, action)]);
      && w'.d.rows == w.d.rows[id := w.d.rows[id].(action := action)] && w'.memories == w.memories
      && (forall token :: FreshToken(w.d, token) ==> FreshToken(w'.d, token))
  {
    RunSnoc(cfg, None, steps, Tamper(id, action));
  }

  lemma SteppedUpWaits(cfg: Config, steps: seq<Step>, op: Op)
    requires ValidRun(cfg, None, steps) && op.StepUpOp? && Refers(Run(cfg, steps).d, op)
    requires var w := Run(cfg, steps);
      w.d.rows[op.id].state == AwaitingStepUp && w.d.rows[op.id].action.amount <= 1_000_00 && FreshToken(w.d, op.token)
    ensures ValidRun(cfg, None, steps + [Done(op)])
    ensures var w, w' := Run(cfg, steps), Run(cfg, steps + [Done(op)]);
      var r := w.d.rows[op.id];
      && MemoryOf(cfg, w', PrincipalOf(op.ctx)) == MemoryOf(cfg, w, PrincipalOf(op.ctx))
      && op.id in w'.d.rows
      && w'.d.rows[op.id] == r.(context := r.context.(assurance := Strong), state := AwaitingConfirmation,
                                token := Some(op.token), issuedAt := Some(op.t2),
                                digest := Some(Digest(cfg.secret, r.action)))
  {
    hide Run, ValidRun, Inv, Next, Tells, AssessedRightly, DecidedEntries, ByNight, FreshToken;
    RunSnoc(cfg, None, steps, Done(op));
    StepUpAnswers(cfg, steps, op);
    EveryRunIsGood(cfg, None, steps);
    RowIsSound(cfg, Run(cfg, steps), op.id);
  }

  lemma WaitingIsPaid(cfg: Config, steps: seq<Step>, op: Op, id: Id)
    requires ValidRun(cfg, None, steps) && op.ConfirmOp? && Holds(Run(cfg, steps).d, PrincipalOf(op.ctx), op.token, id)
    requires var w := Run(cfg, steps);
      var r := w.d.rows[id];
      && r.state == AwaitingConfirmation && !Late(r, op.t1) && !Altered(cfg, r) && r.action.amount % 100 != 13
      && Affordable(cfg, MemoryOf(cfg, w, PrincipalOf(op.ctx)), r.action)
    ensures ValidRun(cfg, None, steps + [Done(op)])
    ensures var d', action := Run(cfg, steps + [Done(op)]).d, Run(cfg, steps).d.rows[id].action;
      id in d'.book && d'.book[id] == Receipt(op.payment, action.amount, action.recipient)
  {
    hide Run, ValidRun, Inv, Next, Leaves, PaidEntries, PaidRow, Tells;
    RunSnoc(cfg, None, steps, Done(op));
    EveryRunIsGood(cfg, None, steps);
    ConfirmAnswers(cfg, steps, op, id);
    HeldIsFound(cfg, Run(cfg, steps), op.ctx, op.token, id);
  }

  lemma RewrittenAndSteppedUp(cfg: Config, steps: seq<Step>, id: Id, action: CreatePix, op: Op)
    requires ValidRun(cfg, None, steps) && op.StepUpOp? && op.id == id
    requires var w := Run(cfg, steps);
      && id in w.d.rows && w.d.rows[id].state == AwaitingStepUp && op.ctx == w.d.rows[id].context
      && FreshToken(w.d, op.token)
    requires action.amount <= 1_000_00
    ensures var all := steps + [Tamper(id, action)] + [Done(op)];
      && ValidRun(cfg, None, all)
      && var w, w' := Run(cfg, steps), Run(cfg, all);
      && MemoryOf(cfg, w', PrincipalOf(op.ctx)) == MemoryOf(cfg, w, PrincipalOf(op.ctx))
      && Holds(w'.d, PrincipalOf(op.ctx), op.token, id)
      && var r := w'.d.rows[id];
         r.state == AwaitingConfirmation && r.action == action && r.issuedAt == Some(op.t2) && !Altered(cfg, r)
  {
    hide Run, ValidRun, Inv, FreshToken;
    RewrittenWaits(cfg, steps, id, action);
    SteppedUpWaits(cfg, steps + [Tamper(id, action)], op);
  }

  /** From every reachable state in which an intent waits for a step-up: rewrite its action to
      any the account can pay, up to R$ 1 000; the step-up issues a token for that, and a
      confirmation pays it, whatever had been proposed. */
  lemma RewrittenBeforeStepUpIsPaid(cfg: Config, steps: seq<Step>, id: Id, action: CreatePix, token: Id, at: Instant,
                                    payment: Id)
    requires ValidRun(cfg, None, steps)
    requires var w := Run(cfg, steps);
      && id in w.d.rows && w.d.rows[id].state == AwaitingStepUp && FreshToken(w.d, token)
      && Affordable(cfg, MemoryOf(cfg, w, OwnerOf(w.d.rows[id])), action)
    requires action.amount <= 1_000_00 && action.amount % 100 != 13
    ensures var ctx := Run(cfg, steps).d.rows[id].context;
      var all := steps + [Tamper(id, action)] + [Done(StepUpOp(ctx, id, token, at, at))]
                 + [Done(ConfirmOp(ctx, token, at, at, payment))];
      && ValidRun(cfg, None, all) && id in Run(cfg, all).d.book
      && Run(cfg, all).d.book[id] == Receipt(payment, action.amount, action.recipient)
  {
    hide Run, Inv, ValidRun, FreshToken, Affordable;
    var ctx := Run(cfg, steps).d.rows[id].context;
    var stepUp := StepUpOp(ctx, id, token, at, at);
    RewrittenAndSteppedUp(cfg, steps, id, action, stepUp);
    WaitingIsPaid(cfg, steps + [Tamper(id, action)] + [Done(stepUp)], ConfirmOp(ctx, token, at, at, payment), id);
  }
}
