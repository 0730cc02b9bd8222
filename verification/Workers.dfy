/** The interleaved system: any number of workers, in any number of processes, run the
    plane's methods on copies of rows nothing locks (src/control_plane/pgstore.py), and
    `PgBank.create_pix` (src/control_plane/pgbank.py) is five steps others can run
    between. What a stale copy can break is the stored state; what it cannot break is
    said here. */
module Workers {
  import opened Actions
  import opened Policy
  import opened Machine
  import opened Bank
  import opened Plane
  import opened Audit
  import opened Intents
  import S = Serial
  import G = Guarantees

  const SOME_ROW := NewRow("", CreatePix("", "", 1), Context("", "", Web, false, Low))

  type InFlight = r: Row | r.state == Submitted witness SOME_ROW.(state := Submitted)
  type InDoubt = r: Row | r.state == Unknown witness SOME_ROW.(state := Unknown)

  /** One thing a worker does next. `Call` to `Reread` are the steps of `create_pix`:
      look the key up, check the account, debit it, file the receipt unless the key is
      taken, and read back what is filed. */
  datatype Job =
    | Do(write: Write)
    | Call(row: InFlight, payment: Id)
    | Check(row: InFlight, payment: Id)
    | Debit(row: InFlight, payment: Id)
    | Reread(row: InFlight, mine: Receipt)
    | AskBook(doubt: InDoubt)

  datatype Worker = Worker(bank: nat, todo: seq<Job>)

  /** `used` are the ids drawn so far; `returned` logs what every `create_pix` call that
      returned gave, under which key; `debits` logs what was taken from each bank's balances
      since it last opened. */
  datatype Shared = Shared(
    d: Durable,
    banks: map<nat, BankMemory>,
    workers: map<nat, Worker>,
    used: set<Id>,
    returned: seq<(Id, Receipt)>,
    debits: map<nat, seq<PixCall>>)

  const NOBODY := Shared(EMPTY, map[], map[], {}, [], map[])

  function DebitsOf(s: Shared, bank: nat): seq<PixCall> {
    if bank in s.debits then s.debits[bank] else []
  }

  /** `Begin` reads the store and plans; `seen` is whatever the risk and funds checks find
      in a memory other workers share. `Turn` does one job. `Die` loses the plan and the
      memory. */
  datatype Tick =
    | Begin(worker: nat, bank: nat, op: Op, seen: BankMemory)
    | Turn(worker: nat)
    | Die(worker: nat)
    | Rewrite(id: Id, action: CreatePix)

  function Dos(ws: seq<Write>): seq<Job> {
    seq(|ws|, i requires 0 <= i < |ws| => Do(ws[i]))
  }

  function Plan(cfg: Config, d: Durable, op: Op, seen: BankMemory): seq<Job> {
    if Accepted(cfg, d, op) then
      var r := ByToken(d, op.token).value;
      Dos(ConsentScript(r, op.ctx, op.token, op.t2)) + [Call(SubmittedRow(r, op.ctx, op.t2), op.payment)]
    else if op.ReconcileOp? && OwnedByCustomer(d, op.ctx, op.id).Some? && d.rows[op.id].state == Unknown then
      [AskBook(d.rows[op.id])]
    else Dos(EffectOf(cfg, d, seen, op).script)
  }

  function MemoryIn(cfg: Config, s: Shared, bank: nat): BankMemory {
    if bank in s.banks then s.banks[bank] else OpeningMemory(cfg)
  }

  function WithTodo(s: Shared, worker: nat, todo: seq<Job>): Shared
    requires worker in s.workers
  {
    s.(workers := s.workers[worker := s.workers[worker].(todo := todo)])
  }

  function DoJob(cfg: Config, s: Shared, worker: nat): Shared
    requires worker in s.workers && s.workers[worker].todo != []
  {
    var job, rest := s.workers[worker].todo[0], s.workers[worker].todo[1..];
    var bank := s.workers[worker].bank;
    match job
    case Do(write) => WithTodo(s.(d := Apply(s.d, write)), worker, rest)
    case Call(r, payment) =>
      if r.id in s.d.book then
        WithTodo(s.(returned := s.returned + [(r.id, s.d.book[r.id])]), worker,
                 Dos(SettleScript(r, Paid(s.d.book[r.id]))))
      else WithTodo(s, worker, [Check(r, payment)])
    case Check(r, payment) =>
      var refusal := Refusal(cfg.contacts, MemoryIn(cfg, s, bank), r.action);
      WithTodo(s, worker, if refusal.Some? then Dos(SettleScript(r, Refused(refusal.value))) else [Debit(r, payment)])
    case Debit(r, payment) =>
      var receipt := Receipt(payment, r.action.amount, r.action.recipient);
      WithTodo(s.(banks := s.banks[bank := Debited(MemoryIn(cfg, s, bank), r.action)],
                  debits := s.debits[bank := DebitsOf(s, bank) + [PixCall(r.id, r.action, payment)]]), worker,
               [Do(File(r.id, receipt)), Reread(r, receipt)])
    case Reread(r, mine) =>
      var stored := if r.id in s.d.book then s.d.book[r.id] else mine;
      if TimesOut(r.action.amount) then WithTodo(s, worker, Dos(SettleScript(r, NoAnswer)))
      else WithTodo(s.(returned := s.returned + [(r.id, stored)]), worker, Dos(SettleScript(r, Paid(stored))))
    case AskBook(r) => WithTodo(s, worker, Dos(ReconcileScript(r, Lookup(s.d.book, r.id))))
  }

  predicate Possible(s: Shared, m: Tick) {
    match m
    case Begin(worker, _, op, _) =>
      (worker in s.workers ==> s.workers[worker].todo == []) && (Opening(op) ==> op.id !in s.used)
    case Turn(worker) => worker in s.workers && s.workers[worker].todo != []
    case Die(worker) => worker in s.workers
    case Rewrite(_, _) => true
  }

  /** What is not possible does not happen. */
  function Ticked(cfg: Config, s: Shared, m: Tick): Shared {
    if !Possible(s, m) then s
    else
      match m
      case Begin(worker, bank, op, seen) =>
        s.(workers := s.workers[worker := Worker(bank, Plan(cfg, s.d, op, seen))],
           used := if Opening(op) then s.used + {op.id} else s.used)
      case Turn(worker) => DoJob(cfg, s, worker)
      case Die(worker) =>
        var bank := s.workers[worker].bank;
        WithTodo(s.(banks := s.banks[bank := OpeningMemory(cfg)], debits := s.debits[bank := []]), worker, [])
      case Rewrite(id, action) => s.(d := S.Tampered(s.d, id, action))
  }

  function Interleave(cfg: Config, ticks: seq<Tick>): Shared {
    if ticks == [] then NOBODY else Ticked(cfg, Interleave(cfg, ticks[..|ticks| - 1]), ticks[|ticks| - 1])
  }

  // ---------------------------------------------------------------- what a plan needs of the trail

  /** The trail knows the row's owner and the issue of its token, and the row's assurance
      is enough for what the token was issued for. */
  ghost predicate RowOk(r: Row, a: Audit) {
    && a.owner == Some(OwnerOf(r))
    && (r.token.Some? <==> r.digest.Some?)
    && (r.token.Some? <==> r.issuedAt.Some?)
    && (r.token.Some? ==>
          (r.token.value, r.digest.value) in a.issued && WithinLimits(r.digest.value.action, r.context))
  }

  ghost predicate CallOk(r: Row, a: Audit) {
    RowOk(r, a) && Consenting(r, a.requested) && r.digest.value.action == r.action
  }

  ghost predicate ReceiptOk(receipt: Receipt, a: Audit) {
    a.owner.Some? && exists given | given in a.requested :: MatchesAction(receipt, given.action)
  }

  /** Nothing above the hard limit was ever issued, and so nothing was agreed to. */
  ghost predicate Capped(a: Audit) {
    && (forall p | p in a.issued :: p.1.action.amount <= HARD_LIMIT)
    && (forall given | given in a.confirmed + a.authorized + a.requested :: given.action.amount <= HARD_LIMIT)
  }

  predicate CappedEntry(e: Entry) {
    e.Transition? && e.hop == AwaitConfirmation && e.digest.Some? ==> e.digest.value.action.amount <= HARD_LIMIT
  }

  /** What the jobs about intent `id` need the trail and the book to hold already, the
      plan's own writes included as they come. */
  ghost predicate PlanOk(secret: string, id: Id, a: Audit, booked: bool, todo: seq<Job>)
    decreases |todo|
  {
    if todo == [] then true
    else
      var rest := todo[1..];
      match todo[0]
      case Do(Append(i, entry)) =>
        if i == id then CappedEntry(entry) && PlanOk(secret, id, Observe(secret, a, entry), booked, rest)
        else PlanOk(secret, id, a, booked, rest)
      case Do(Put(r)) => (r.id == id ==> RowOk(r, a)) && PlanOk(secret, id, a, booked, rest)
      case Do(File(i, receipt)) => (i == id ==> ReceiptOk(receipt, a)) && PlanOk(secret, id, a, booked || i == id, rest)
      case Call(r, _) => (r.id == id ==> CallOk(r, a)) && rest == []
      case Check(r, _) => (r.id == id ==> CallOk(r, a)) && rest == []
      case Debit(r, _) => (r.id == id ==> CallOk(r, a)) && rest == []
      case Reread(r, _) => (r.id == id ==> CallOk(r, a) && booked) && rest == []
      case AskBook(r) => (r.id == id ==> RowOk(r, a)) && rest == []
  }

  predicate About(job: Job, id: Id) {
    match job
    case Do(write) => Subject(write) == id
    case AskBook(r) => r.id == id
    case _ => job.row.id == id
  }

  predicate Mentions(todo: seq<Job>, id: Id) {
    exists job | job in todo :: About(job, id)
  }

  /** What events only ever add to. */
  ghost predicate Grows(a: Audit, b: Audit) {
    && (a.owner.Some? ==> b.owner == a.owner)
    && (a.approved.Some? ==> b.approved.Some?)
    && a.issued <= b.issued && a.confirmed <= b.confirmed
    && a.authorized <= b.authorized && a.requested <= b.requested
  }

  lemma ObserveGrows(secret: string, a: Audit, e: Entry)
    ensures Grows(a, Observe(secret, a, e))
  {
  }

  lemma ObserveKeepsGrowth(secret: string, a: Audit, b: Audit, e: Entry)
    requires Grows(a, b) && a.owner.Some?
    ensures Grows(Observe(secret, a, e), Observe(secret, b, e))
  {
  }

  lemma ReceiptStaysOk(receipt: Receipt, a: Audit, b: Audit)
    requires Grows(a, b) && ReceiptOk(receipt, a)
    ensures ReceiptOk(receipt, b)
  {
    var given :| given in a.requested && MatchesAction(receipt, given.action);
    assert given in b.requested;
  }

  lemma ObserveCapped(secret: string, a: Audit, e: Entry)
    requires Capped(a) && CappedEntry(e)
    ensures Capped(Observe(secret, a, e))
  {
    hide Target;
  }

  /** A plan that was fine stays fine whatever others add to the trail and the book. */
  lemma {:induction false} PlanStaysOk(secret: string, id: Id, a: Audit, b: Audit, booked: bool, booked': bool,
                                       todo: seq<Job>)
    requires PlanOk(secret, id, a, booked, todo) && a.owner.Some? && Grows(a, b) && (booked ==> booked')
    ensures PlanOk(secret, id, b, booked', todo)
    decreases |todo|
  {
    if todo != [] {
      match todo[0]
      case Do(Append(i, entry)) =>
        if i == id {
          ObserveGrows(secret, a, entry);
          ObserveKeepsGrowth(secret, a, b, entry);
          PlanStaysOk(secret, id, Observe(secret, a, entry), Observe(secret, b, entry), booked, booked', todo[1..]);
        } else {
          PlanStaysOk(secret, id, a, b, booked, booked', todo[1..]);
        }
      case Do(Put(_)) => PlanStaysOk(secret, id, a, b, booked, booked', todo[1..]);
      case Do(File(i, receipt)) =>
        if i == id {
          ReceiptStaysOk(receipt, a, b);
        }
        PlanStaysOk(secret, id, a, b, booked || i == id, booked' || i == id, todo[1..]);
      case _ =>
    }
  }

  /** A well-formed plan asks nothing of an intent it does not mention. */
  lemma {:induction false} UnmentionedIsOk(secret: string, id: Id, a: Audit, b: Audit, booked: bool, booked': bool,
                                           todo: seq<Job>)
    requires PlanOk(secret, id, a, booked, todo) && !Mentions(todo, id)
    ensures PlanOk(secret, id, b, booked', todo)
    decreases |todo|
  {
    if todo != [] {
      var rest := todo[1..];
      assert todo[0] in todo;
      assert forall job | job in rest :: job in todo;
      match todo[0]
      case Do(File(i, _)) => UnmentionedIsOk(secret, id, a, b, booked, booked', rest);
      case Do(_) => UnmentionedIsOk(secret, id, a, b, booked, booked', rest);
      case _ =>
    }
  }

  // ---------------------------------------------------------------- plans are fine when made

  function AuditStep(secret: string, id: Id, a: Audit, w: Write): Audit {
    if w.Append? && w.id == id then Observe(secret, a, w.entry) else a
  }

  function AuditRun(secret: string, id: Id, a: Audit, ws: seq<Write>): Audit
    decreases |ws|
  {
    if ws == [] then a else AuditRun(secret, id, AuditStep(secret, id, a, ws[0]), ws[1..])
  }

  /** Rows are only saved once the trail knows owner and token; nothing is filed. */
  ghost predicate WritesOk(secret: string, id: Id, a: Audit, ws: seq<Write>)
    decreases |ws|
  {
    ws != [] ==>
      && WriteOk(id, a, ws[0])
      && WritesOk(secret, id, AuditStep(secret, id, a, ws[0]), ws[1..])
  }

  ghost predicate WriteOk(id: Id, a: Audit, w: Write) {
    !w.File? && (w.Put? && w.row.id == id ==> RowOk(w.row, a)) && (w.Append? && w.id == id ==> CappedEntry(w.entry))
  }

  lemma TwoWrites(secret: string, id: Id, a: Audit, w: Write, x: Write)
    ensures AuditRun(secret, id, a, [w, x]) == AuditStep(secret, id, AuditStep(secret, id, a, w), x)
    ensures WritesOk(secret, id, a, [w, x]) <==> WriteOk(id, a, w) && WriteOk(id, AuditStep(secret, id, a, w), x)
  {
    assert [w, x][1..] == [x] && [x][1..] == [];
    assert AuditRun(secret, id, AuditStep(secret, id, a, w), [x])
        == AuditStep(secret, id, AuditStep(secret, id, a, w), x);
    assert WritesOk(secret, id, AuditStep(secret, id, a, w), [x]) <==> WriteOk(id, AuditStep(secret, id, a, w), x);
  }

  lemma {:induction false} WritesConcat(secret: string, id: Id, a: Audit, ws: seq<Write>, vs: seq<Write>)
    requires WritesOk(secret, id, a, ws) && WritesOk(secret, id, AuditRun(secret, id, a, ws), vs)
    ensures WritesOk(secret, id, a, ws + vs)
    ensures AuditRun(secret, id, a, ws + vs) == AuditRun(secret, id, AuditRun(secret, id, a, ws), vs)
    decreases |ws|
  {
    if ws == [] {
      assert ws + vs == vs;
    } else {
      assert (ws + vs)[1..] == ws[1..] + vs;
      WritesConcat(secret, id, AuditStep(secret, id, a, ws[0]), ws[1..], vs);
    }
  }

  lemma {:induction false} WritesMakePlan(secret: string, id: Id, a: Audit, booked: bool, ws: seq<Write>,
                                          tail: seq<Job>)
    requires WritesOk(secret, id, a, ws) && PlanOk(secret, id, AuditRun(secret, id, a, ws), booked, tail)
    ensures PlanOk(secret, id, a, booked, Dos(ws) + tail)
    decreases |ws|
  {
    if ws == [] {
      assert Dos(ws) + tail == tail;
    } else {
      assert (Dos(ws) + tail)[1..] == Dos(ws[1..]) + tail;
      WritesMakePlan(secret, id, AuditStep(secret, id, a, ws[0]), booked, ws[1..], tail);
    }
  }

  predicate SameCaller(ctx: Context, from: Context) {
    ctx == from || ctx == from.(assurance := Strong)
  }

  /** Saved rows that differ from `r` in no field consent is about, but that assurance may
      have been raised. */
  predicate SavesLike(ws: seq<Write>, r: Row) {
    forall w | w in ws :: !w.File? && Subject(w) == r.id
      && (w.Append? ==> CappedEntry(w.entry))
      && (w.Put? ==>
        && SameCaller(w.row.context, r.context)
        && w.row.token == r.token && w.row.digest == r.digest && w.row.issuedAt == r.issuedAt)
  }

  lemma {:induction false} SavesLikeOk(secret: string, id: Id, a: Audit, ws: seq<Write>, r: Row)
    requires SavesLike(ws, r) && (r.id == id ==> RowOk(r, a))
    ensures WritesOk(secret, id, a, ws)
    ensures r.id == id ==> RowOk(r, AuditRun(secret, id, a, ws))
    ensures Grows(a, AuditRun(secret, id, a, ws))
    decreases |ws|
  {
    if ws != [] {
      assert ws[0] in ws;
      assert forall w | w in ws[1..] :: w in ws;
      var b := AuditStep(secret, id, a, ws[0]);
      if ws[0].Append? {
        ObserveGrows(secret, a, ws[0].entry);
      }
      SavesLikeOk(secret, id, b, ws[1..], r);
    }
  }

  lemma IssueOk(cfg: Config, id: Id, a: Audit, r: Row, token: Id, at: Instant)
    requires r.state == Validated && WithinLimits(r.action, r.context)
    requires r.id == id ==> RowOk(r, a) && a.approved.Some?
    ensures WritesOk(cfg.secret, id, a, Move(Issued(cfg, r, token, at), AwaitConfirmation))
  {
    var ws := Move(Issued(cfg, r, token, at), AwaitConfirmation);
    TwoWrites(cfg.secret, id, a, ws[0], ws[1]);
  }

  /** What each verdict adds to the plan. */
  lemma VerdictTail(cfg: Config, r: Row, memory: BankMemory, token: Id, t1: Instant, t2: Instant)
    requires r.state == Validated
    ensures SavesLike(DecideHead(r, memory, t1), r)
    ensures var verdict := VerdictOn(r, memory, t1);
      var tail := ApplyVerdict(cfg, r, verdict, token, t2).0;
      if verdict.decision == RequireConfirmation then
        WithinLimits(r.action, r.context) && tail == Move(Issued(cfg, r, token, t2), AwaitConfirmation)
      else SavesLike(tail, r)
  {
    hide RiskOf, IsNighttime;
  }

  lemma ApprovalOk(secret: string, id: Id, a: Audit, r: Row, memory: BankMemory, t1: Instant)
    requires r.id == id ==> RowOk(r, a)
    ensures var b := AuditRun(secret, id, a, DecideHead(r, memory, t1));
      && (r.id == id ==> RowOk(r, b))
      && (r.id == id && VerdictOn(r, memory, t1).decision == RequireConfirmation ==> b.approved.Some?)
  {
    hide VerdictOn, RiskOf;
    var head := DecideHead(r, memory, t1);
    TwoWrites(secret, id, a, head[0], head[1]);
  }

  lemma DecideOk(cfg: Config, id: Id, a: Audit, r: Row, memory: BankMemory, token: Id, t1: Instant, t2: Instant)
    requires r.state == Validated && (r.id == id ==> RowOk(r, a))
    ensures WritesOk(cfg.secret, id, a, Decide(cfg, r, memory, token, t1, t2).0)
  {
    hide Observe, WritesOk, VerdictOn, AuditRun, RowOk, SavesLike, DecideHead, ApplyVerdict;
    var head, verdict := DecideHead(r, memory, t1), VerdictOn(r, memory, t1);
    var b := AuditRun(cfg.secret, id, a, head);
    VerdictTail(cfg, r, memory, token, t1, t2);
    ApprovalOk(cfg.secret, id, a, r, memory, t1);
    SavesLikeOk(cfg.secret, id, a, head, r);
    if verdict.decision == RequireConfirmation {
      IssueOk(cfg, id, b, r, token, t2);
    } else {
      SavesLikeOk(cfg.secret, id, b, ApplyVerdict(cfg, r, verdict, token, t2).0, r);
    }
    WritesConcat(cfg.secret, id, a, head, ApplyVerdict(cfg, r, verdict, token, t2).0);
  }

  lemma ProposeOk(cfg: Config, id: Id, a: Audit, memory: BankMemory, op: Op)
    requires op.ProposeOp? && (op.id == id ==> a.owner.None?)
    ensures WritesOk(cfg.secret, id, a,
                     Propose(cfg, memory, op.ctx, op.proposed, op.text, op.id, op.token, op.t1, op.t2).script)
  {
    var matches := FindContacts(cfg.contacts, op.proposed.recipient);
    var head := ProposeHead(op.ctx, op.proposed, op.text, op.id, matches);
    HeadOpens(cfg, id, a, op, matches);
    if |matches| == 1 {
      var row := Proposed(op.ctx, op.proposed, op.id, matches[0].id);
      var b := AuditRun(cfg.secret, id, a, head);
      ProposeBodyOk(cfg, id, b, row, memory, op.token, op.t1, op.t2);
      WritesConcat(cfg.secret, id, a, head, ProposeBody(cfg, row, memory, op.token, op.t1, op.t2).0);
    }
  }

  lemma HeadOpens(cfg: Config, id: Id, a: Audit, op: Op, matches: seq<Contact>)
    requires op.ProposeOp? && (op.id == id ==> a.owner.None?)
    ensures var head := ProposeHead(op.ctx, op.proposed, op.text, op.id, matches);
      && WritesOk(cfg.secret, id, a, head)
      && (op.id == id ==> AuditRun(cfg.secret, id, a, head).owner == Some(PrincipalOf(op.ctx)))
  {
    var head := ProposeHead(op.ctx, op.proposed, op.text, op.id, matches);
    assert head[1..] == [head[1], head[2]];
    TwoWrites(cfg.secret, id, AuditStep(cfg.secret, id, a, head[0]), head[1], head[2]);
  }

  lemma ProposeBodyOk(cfg: Config, id: Id, a: Audit, row: Row, memory: BankMemory, token: Id, t1: Instant, t2: Instant)
    requires row == NewRow(row.id, row.action, row.context) && (row.id == id ==> a.owner == Some(OwnerOf(row)))
    ensures WritesOk(cfg.secret, id, a, ProposeBody(cfg, row, memory, token, t1, t2).0)
  {
    var created := [Put(row), Append(row.id, CanonicalAction(row.action))];
    var rejected := MissingPreconditions(cfg, memory, row.action) != [];
    var head := created + if rejected then Move(row, Reject) else Move(row, Validate);
    assert SavesLike(head, row);
    SavesLikeOk(cfg.secret, id, a, head, row);
    if !rejected {
      var validated := Moved(row, Validate);
      DecideOk(cfg, id, AuditRun(cfg.secret, id, a, head), validated, memory, token, t1, t2);
      WritesConcat(cfg.secret, id, a, head, Decide(cfg, validated, memory, token, t1, t2).0);
    }
  }

  lemma StepUpOk(cfg: Config, id: Id, a: Audit, r: Row, memory: BankMemory, token: Id, t1: Instant, t2: Instant)
    requires r.state == AwaitingStepUp && (r.id == id ==> RowOk(r, a))
    ensures WritesOk(cfg.secret, id, a, StepUpBody(cfg, r, memory, token, t1, t2).0)
  {
    var strong := Strengthened(r);
    var head := StepUpHead(r) + Move(strong, StepUp);
    assert SavesLike(head, r);
    SavesLikeOk(cfg.secret, id, a, head, r);
    var validated := Moved(strong, StepUp);
    DecideOk(cfg, id, AuditRun(cfg.secret, id, a, head), validated, memory, token, t1, t2);
    WritesConcat(cfg.secret, id, a, head, Decide(cfg, validated, memory, token, t1, t2).0);
  }

  lemma ConsentHeadOk(cfg: Config, a: Audit, r: Row, ctx: Context, token: Id, at: Instant)
    requires r.state == AwaitingConfirmation && RowOk(r, a)
    requires r.token == Some(token) && OwnerOf(r) == PrincipalOf(ctx) && DigestMatches(cfg, r)
    ensures var head := ConsentHead(r, ctx, token, at);
      var b := AuditRun(cfg.secret, r.id, a, head);
      WritesOk(cfg.secret, r.id, a, head) && RowOk(r, b) && Consent(token, at, r.action) in b.confirmed
  {
    var head := ConsentHead(r, ctx, token, at);
    TwoWrites(cfg.secret, r.id, a, head[0], head[1]);
  }

  lemma AuthorizeSavesLike(r: Row, assurance: Assurance)
    requires r.state == AwaitingConfirmation
    ensures SavesLike(Move(r, Confirm), r)
    ensures SavesLike([Append(r.id, Authorization(assurance))], r)
    ensures SavesLike(Move(Moved(r, Confirm), Submit), r)
  {
  }

  lemma OneAppend(secret: string, a: Audit, id: Id, e: Entry)
    ensures AuditRun(secret, id, a, [Append(id, e)]) == Observe(secret, a, e)
  {
    assert [Append(id, e)][1..] == [];
  }

  lemma AuthorizeOk(cfg: Config, a: Audit, r: Row, assurance: Assurance)
    requires r.state == AwaitingConfirmation && RowOk(r, a)
    ensures var ws := AuthorizeBlock(r, assurance);
      var b := AuditRun(cfg.secret, r.id, a, ws);
      && WritesOk(cfg.secret, r.id, a, ws) && RowOk(r, b)
      && Cleared(a.confirmed, assurance) <= b.authorized
  {
    hide SavesLike, Move, RowOk, WritesOk, AuditRun;
    AuthorizeSavesLike(r, assurance);
    var hop, note := Move(r, Confirm), [Append(r.id, Authorization(assurance))];
    var submit := Move(Moved(r, Confirm), Submit);
    SavesLikeOk(cfg.secret, r.id, a, hop, r);
    var a1 := AuditRun(cfg.secret, r.id, a, hop);
    SavesLikeOk(cfg.secret, r.id, a1, note, r);
    SavesLikeOk(cfg.secret, r.id, AuditRun(cfg.secret, r.id, a1, note), submit, r);
    OneAppend(cfg.secret, a1, r.id, Authorization(assurance));
    WritesConcat(cfg.secret, r.id, a, hop, note);
    WritesConcat(cfg.secret, r.id, a, hop + note, submit);
  }

  lemma RequestOk(cfg: Config, a: Audit, r: Row)
    requires RowOk(r, a) && Consenting(r, a.authorized) && r.digest.value.action == r.action
    ensures var ws := [Append(r.id, ExecutionRequest(r.id))];
      WritesOk(cfg.secret, r.id, a, ws) && CallOk(r, AuditRun(cfg.secret, r.id, a, ws))
  {
    assert [Append(r.id, ExecutionRequest(r.id))][1..] == [];
  }

  function AuthorizeBlock(r: Row, assurance: Assurance): seq<Write>
    requires r.state == AwaitingConfirmation
  {
    Move(r, Confirm) + [Append(r.id, Authorization(assurance))] + Move(Moved(r, Confirm), Submit)
  }

  lemma ConsentIsThreeBlocks(r: Row, ctx: Context, token: Id, at: Instant)
    requires r.state == AwaitingConfirmation
    ensures ConsentScript(r, ctx, token, at)
         == ConsentHead(r, ctx, token, at) + AuthorizeBlock(Consented(r, ctx, at), r.context.assurance)
            + [Append(r.id, ExecutionRequest(r.id))]
  {
  }

  /** By the end of the consent script the trail holds the action as requested. */
  lemma ConsentOk(cfg: Config, a: Audit, r: Row, ctx: Context, token: Id, at: Instant)
    requires r.state == AwaitingConfirmation && RowOk(r, a)
    requires r.token == Some(token) && OwnerOf(r) == PrincipalOf(ctx) && DigestMatches(cfg, r)
    ensures WritesOk(cfg.secret, r.id, a, ConsentScript(r, ctx, token, at))
    ensures CallOk(SubmittedRow(r, ctx, at), AuditRun(cfg.secret, r.id, a, ConsentScript(r, ctx, token, at)))
  {
    var consented := Consented(r, ctx, at);
    var head, middle := ConsentHead(r, ctx, token, at), AuthorizeBlock(consented, r.context.assurance);
    var last := [Append(r.id, ExecutionRequest(r.id))];
    ConsentHeadOk(cfg, a, r, ctx, token, at);
    var a1 := AuditRun(cfg.secret, r.id, a, head);
    AuthorizeOk(cfg, a1, consented, r.context.assurance);
    RequestOk(cfg, AuditRun(cfg.secret, r.id, a1, middle), SubmittedRow(r, ctx, at));
    WritesConcat(cfg.secret, r.id, a, head, middle);
    WritesConcat(cfg.secret, r.id, a, head + middle, last);
    ConsentIsThreeBlocks(r, ctx, token, at);
  }

  lemma {:induction false} SweepOk(secret: string, id: Id, a: Audit, order: seq<Id>, rows: map<Id, Row>)
    requires forall i | i in order && i in rows :: rows[i].id == i && (i == id ==> RowOk(rows[i], a))
    ensures WritesOk(secret, id, a, SweepScript(order, rows))
    decreases |order|
  {
    if order != [] {
      var first, rest := order[0], order[1..];
      assert forall i | i in rest :: i in order;
      if first in rows && rows[first].state == Submitted {
        var r := rows[first];
        SavesLikeOk(secret, id, a, SweepRow(r), r);
        SweepOk(secret, id, AuditRun(secret, id, a, SweepRow(r)), rest, rows);
        WritesConcat(secret, id, a, SweepRow(r), SweepScript(rest, rows));
      } else {
        SweepOk(secret, id, a, rest, rows);
        assert SweepScript(order, rows) == SweepScript(rest, rows);
      }
    }
  }

  // ---------------------------------------------------------------- the invariant of every interleaving

  function AuditAt(cfg: Config, s: Shared, id: Id): Audit {
    AuditOf(cfg.secret, Trail(s.d.ledger, id))
  }

  /** The stored row and the booked receipt are covered by the trail. */
  ghost predicate StoreOk(cfg: Config, s: Shared, id: Id) {
    && (id in s.d.rows ==> s.d.rows[id].id == id && RowOk(s.d.rows[id], AuditAt(cfg, s, id)))
    && (id in s.d.book ==> ReceiptOk(s.d.book[id], AuditAt(cfg, s, id)))
    && Capped(AuditAt(cfg, s, id))
  }

  ghost predicate PlansOk(cfg: Config, s: Shared, id: Id) {
    forall w | w in s.workers :: PlanOk(cfg.secret, id, AuditAt(cfg, s, id), id in s.d.book, s.workers[w].todo)
  }

  /** Until its request is on record an intent is in one worker's plan at most, and
      nowhere else; until it is drawn it is nowhere at all. */
  ghost predicate Unopened(cfg: Config, s: Shared, id: Id) {
    && (AuditAt(cfg, s, id).owner.None? ==>
      && id !in s.d.rows && id !in s.d.book
      && forall w, x | w in s.workers && x in s.workers && w != x ::
           !(Mentions(s.workers[w].todo, id) && Mentions(s.workers[x].todo, id)))
    && (id !in s.used ==>
      AuditAt(cfg, s, id).owner.None? && forall w | w in s.workers :: !Mentions(s.workers[w].todo, id))
  }

  ghost predicate ReturnedOk(s: Shared) {
    forall i | 0 <= i < |s.returned| :: s.returned[i].0 in s.d.book && s.d.book[s.returned[i].0] == s.returned[i].1
  }

  ghost predicate Sound(cfg: Config, s: Shared) {
    && (forall id :: StoreOk(cfg, s, id) && PlansOk(cfg, s, id) && Unopened(cfg, s, id))
    && ReturnedOk(s)
  }

  lemma FoundByToken(cfg: Config, s: Shared, token: Id)
    requires Sound(cfg, s) && ByToken(s.d, token).Some?
    ensures var r := ByToken(s.d, token).value;
      r.id in s.d.rows && s.d.rows[r.id] == r && r.token == Some(token) && RowOk(r, AuditAt(cfg, s, r.id))
  {
    S.ScanFinds(s.d.order, s.d.rows, token);
    var r := ByToken(s.d, token).value;
    var i :| i in s.d.order && i in s.d.rows && s.d.rows[i] == r && s.d.rows[i].token == Some(token);
    assert StoreOk(cfg, s, i);
  }

  lemma AcceptedPlanOk(cfg: Config, s: Shared, op: Op, seen: BankMemory, id: Id)
    requires Sound(cfg, s) && Accepted(cfg, s.d, op)
    ensures PlanOk(cfg.secret, id, AuditAt(cfg, s, id), id in s.d.book, Plan(cfg, s.d, op, seen))
    ensures Mentions(Plan(cfg, s.d, op, seen), id) ==> id in s.d.rows
  {
    hide Sound, WritesOk, AuditOf, Trail;
    FoundByToken(cfg, s, op.token);
    var r := ByToken(s.d, op.token).value;
    var script, call := ConsentScript(r, op.ctx, op.token, op.t2), Call(SubmittedRow(r, op.ctx, op.t2), op.payment);
    S.ConsentAbout(r, op.ctx, op.token, op.t2);
    var a := AuditAt(cfg, s, r.id);
    ConsentOk(cfg, a, r, op.ctx, op.token, op.t2);
    assert [call][1..] == [];
    WritesMakePlan(cfg.secret, r.id, a, r.id in s.d.book, script, [call]);
    if id != r.id {
      assert !Mentions(Plan(cfg, s.d, op, seen), id);
      WritesElsewhere(cfg.secret, id, AuditAt(cfg, s, id), script);
      WritesMakePlan(cfg.secret, id, AuditAt(cfg, s, id), id in s.d.book, script, [call]);
    }
  }

  lemma {:induction false} WritesElsewhere(secret: string, id: Id, a: Audit, ws: seq<Write>)
    requires forall w | w in ws :: Subject(w) != id && !w.File?
    ensures WritesOk(secret, id, a, ws) && AuditRun(secret, id, a, ws) == a
    decreases |ws|
  {
    if ws != [] {
      assert ws[0] in ws;
      assert forall w | w in ws[1..] :: w in ws;
      WritesElsewhere(secret, id, a, ws[1..]);
    }
  }

  lemma ScriptPlanOk(cfg: Config, s: Shared, op: Op, seen: BankMemory, id: Id)
    requires Sound(cfg, s) && !Accepted(cfg, s.d, op) && (Opening(op) ==> op.id !in s.used)
    ensures WritesOk(cfg.secret, id, AuditAt(cfg, s, id), EffectOf(cfg, s.d, seen, op).script)
  {
    hide Propose, Query, StepUpBody, ConfirmRow, Moved, Move, ReconcileScript, SweepScript, StatusOf, AuditOf, PlansOk;
    var a := AuditAt(cfg, s, id);
    assert StoreOk(cfg, s, id) && Unopened(cfg, s, id);
    match op
    case ProposeOp(_, _, _, _, _, _, _) => ProposeOk(cfg, id, a, seen, op);
    case QueryOp(ctx, account, i) => QueryOk(cfg, id, a, seen, ctx, account, i);
    case StepUpOp(ctx, i, token, t1, t2) =>
      assert StoreOk(cfg, s, i);
      if i in s.d.rows && s.d.rows[i].state == AwaitingStepUp {
        StepUpOk(cfg, id, a, s.d.rows[i], seen, token, t1, t2);
      }
    case ConfirmOp(ctx, token, t1, t2, payment) =>
      if OwnedByToken(s.d, ctx, token).Some? {
        FoundByToken(cfg, s, token);
        RefusedOk(cfg, s.d, id, a, seen, ctx, ByToken(s.d, token).value, token, t1, t2, payment);
      }
    case CancelOp(ctx, token) =>
      if OwnedByToken(s.d, ctx, token).Some? {
        FoundByToken(cfg, s, token);
        CancelOk(cfg, s.d, id, a, seen, ctx, token);
      }
    case ReconcileOp(ctx, i) =>
      assert StoreOk(cfg, s, i);
      if i in s.d.rows && s.d.rows[i].state == Unknown {
        ReconcileOk(cfg, id, a, s.d.rows[i], Lookup(s.d.book, s.d.rows[i].id));
      }
    case SweepOp =>
      assert forall i | i in s.d.rows :: StoreOk(cfg, s, i);
      SweepOk(cfg.secret, id, a, s.d.order, s.d.rows);
    case _ =>
  }

  lemma QueryOk(cfg: Config, id: Id, a: Audit, seen: BankMemory, ctx: Context, account: string, i: Id)
    ensures WritesOk(cfg.secret, id, a, Query(seen, ctx, account, i).script)
  {
    var ws := Query(seen, ctx, account, i).script;
    assert ws[1..] == [] || (ws[1..] == [ws[1]] && ws[1..][1..] == []);
  }

  lemma RefusedOk(cfg: Config, d: Durable, id: Id, a: Audit, seen: BankMemory, ctx: Context, r: Row, token: Id,
                  t1: Instant, t2: Instant, payment: Id)
    requires r.id == id ==> RowOk(r, a)
    requires r.state != AwaitingConfirmation || Expired(r, t1) || !DigestMatches(cfg, r)
    ensures WritesOk(cfg.secret, id, a, ConfirmRow(cfg, d, seen, ctx, r, token, t1, t2, payment).script)
  {
    var ws := ConfirmRow(cfg, d, seen, ctx, r, token, t1, t2, payment).script;
    assert SavesLike(ws, r);
    SavesLikeOk(cfg.secret, id, a, ws, r);
  }

  lemma CancelOk(cfg: Config, d: Durable, id: Id, a: Audit, seen: BankMemory, ctx: Context, token: Id)
    requires OwnedByToken(d, ctx, token).Some?
    requires ByToken(d, token).value.id == id ==> RowOk(ByToken(d, token).value, a)
    ensures WritesOk(cfg.secret, id, a, CancelPix(cfg, d, seen, ctx, token).script)
  {
    var ws, r := CancelPix(cfg, d, seen, ctx, token).script, ByToken(d, token).value;
    assert SavesLike(ws, r);
    SavesLikeOk(cfg.secret, id, a, ws, r);
  }

  lemma ReconcileOk(cfg: Config, id: Id, a: Audit, r: Row, receipt: Option<Receipt>)
    requires r.state == Unknown && (r.id == id ==> RowOk(r, a))
    ensures WritesOk(cfg.secret, id, a, ReconcileScript(r, receipt))
  {
    assert SavesLike(ReconcileScript(r, receipt), r);
    SavesLikeOk(cfg.secret, id, a, ReconcileScript(r, receipt), r);
  }

  lemma {:induction false} SweepNamesRows(order: seq<Id>, rows: map<Id, Row>)
    requires forall i | i in order && i in rows :: rows[i].id == i
    ensures forall x | x in SweepScript(order, rows) :: Subject(x) in rows
    decreases |order|
  {
    if order != [] {
      assert forall i | i in order[1..] :: i in order;
      SweepNamesRows(order[1..], rows);
    }
  }

  /** A plan is about stored rows, or about the id just drawn. */
  lemma ScriptNames(cfg: Config, s: Shared, op: Op, seen: BankMemory)
    requires Sound(cfg, s)
    ensures forall x | x in EffectOf(cfg, s.d, seen, op).script ::
      Subject(x) in s.d.rows || (Opening(op) && Subject(x) == op.id)
  {
    hide Propose, StepUpBody, ConfirmRow, ReconcileScript, SweepScript, StatusOf, AuditOf, PlansOk, Plan;
    match op
    case ProposeOp(ctx, proposed, text, id, token, t1, t2) =>
      S.ProposeQuiet(cfg, seen, ctx, proposed, text, id, token, t1, t2);
    case StepUpOp(ctx, i, token, t1, t2) =>
      assert StoreOk(cfg, s, i);
      if i in s.d.rows && s.d.rows[i].state == AwaitingStepUp {
        S.StepUpQuiet(cfg, s.d.rows[i], seen, token, t1, t2);
      }
    case ConfirmOp(ctx, token, t1, t2, payment) =>
      if ByToken(s.d, token).Some? {
        FoundByToken(cfg, s, token);
        S.ConfirmAbout(cfg, s.d, seen, ctx, ByToken(s.d, token).value, token, t1, t2, payment);
      }
    case CancelOp(ctx, token) =>
      S.CancelQuiet(cfg, s.d, seen, ctx, token);
      if ByToken(s.d, token).Some? {
        FoundByToken(cfg, s, token);
      }
    case ReconcileOp(ctx, i) =>
      assert StoreOk(cfg, s, i);
      if i in s.d.rows && s.d.rows[i].state == Unknown {
        S.ReconcileQuiet(s.d.rows[i], Lookup(s.d.book, i));
      }
    case SweepOp =>
      assert forall i | i in s.d.rows :: StoreOk(cfg, s, i);
      SweepNamesRows(s.d.order, s.d.rows);
    case _ =>
  }

  lemma DosMention(ws: seq<Write>, id: Id)
    ensures Mentions(Dos(ws), id) <==> exists w | w in ws :: Subject(w) == id
  {
    if Mentions(Dos(ws), id) {
      var job :| job in Dos(ws) && About(job, id);
      assert job.write in ws;
    }
    forall w | w in ws && Subject(w) == id
      ensures Mentions(Dos(ws), id)
    {
      var i :| 0 <= i < |ws| && ws[i] == w;
      assert Dos(ws)[i] == Do(w) && About(Dos(ws)[i], id);
    }
  }

  lemma PlanMade(cfg: Config, s: Shared, op: Op, seen: BankMemory, id: Id)
    requires Sound(cfg, s) && (Opening(op) ==> op.id !in s.used)
    ensures PlanOk(cfg.secret, id, AuditAt(cfg, s, id), id in s.d.book, Plan(cfg, s.d, op, seen))
    ensures Mentions(Plan(cfg, s.d, op, seen), id) ==> id in s.d.rows || (Opening(op) && id == op.id)
  {
    assert StoreOk(cfg, s, id);
    if Accepted(cfg, s.d, op) {
      AcceptedPlanOk(cfg, s, op, seen, id);
    } else if op.ReconcileOp? && OwnedByCustomer(s.d, op.ctx, op.id).Some? && s.d.rows[op.id].state == Unknown {
      assert StoreOk(cfg, s, op.id);
      assert [AskBook(s.d.rows[op.id])][1..] == [];
    } else {
      var script := EffectOf(cfg, s.d, seen, op).script;
      ScriptPlanOk(cfg, s, op, seen, id);
      WritesMakePlan(cfg.secret, id, AuditAt(cfg, s, id), id in s.d.book, script, []);
      assert Dos(script) + [] == Dos(script);
      ScriptNames(cfg, s, op, seen);
      DosMention(script, id);
    }
  }

  // ---------------------------------------------------------------- one tick

  lemma BeginKeepsSound(cfg: Config, s: Shared, m: Tick)
    requires Sound(cfg, s) && m.Begin? && Possible(s, m)
    ensures Sound(cfg, Ticked(cfg, s, m))
  {
    var s' := Ticked(cfg, s, m);
    forall id
      ensures StoreOk(cfg, s', id) && PlansOk(cfg, s', id) && Unopened(cfg, s', id)
    {
      assert StoreOk(cfg, s, id) && PlansOk(cfg, s, id) && Unopened(cfg, s, id);
      PlanMade(cfg, s, m.op, m.seen, id);
    }
  }

  /** A worker's plan replaced by one that is fine and mentions nothing new. */
  lemma ReplanKeepsSound(cfg: Config, s: Shared, worker: nat, todo: seq<Job>, s': Shared)
    requires Sound(cfg, s) && worker in s.workers
    requires forall id :: PlanOk(cfg.secret, id, AuditAt(cfg, s, id), id in s.d.book, todo)
    requires forall id :: Mentions(todo, id) ==> Mentions(s.workers[worker].todo, id)
    requires s'.d == s.d && s'.used == s.used && s'.workers == WithTodo(s, worker, todo).workers && ReturnedOk(s')
    ensures Sound(cfg, s')
  {
    forall id
      ensures StoreOk(cfg, s', id) && PlansOk(cfg, s', id) && Unopened(cfg, s', id)
    {
      assert StoreOk(cfg, s, id) && PlansOk(cfg, s, id) && Unopened(cfg, s, id);
    }
  }

  lemma AboutPlan(cfg: Config, s: Shared, worker: nat, id: Id)
    requires Sound(cfg, s) && worker in s.workers
    ensures PlanOk(cfg.secret, id, AuditAt(cfg, s, id), id in s.d.book, s.workers[worker].todo)
  {
    assert PlansOk(cfg, s, id);
  }

  lemma SettleSavesLike(r: InFlight, answer: Answer)
    ensures SavesLike(SettleScript(r, answer), r)
  {
  }

  lemma SettlePlanOk(cfg: Config, s: Shared, r: InFlight, answer: Answer, id: Id)
    requires r.id == id ==> RowOk(r, AuditAt(cfg, s, id))
    ensures PlanOk(cfg.secret, id, AuditAt(cfg, s, id), id in s.d.book, Dos(SettleScript(r, answer)))
    ensures Mentions(Dos(SettleScript(r, answer)), id) ==> id == r.id
  {
    hide SettleScript, SavesLike, WritesOk, RowOk, PlanOk, Dos, Mentions;
    var ws, a := SettleScript(r, answer), AuditAt(cfg, s, id);
    SettleSavesLike(r, answer);
    SavesLikeOk(cfg.secret, id, a, ws, r);
    WritesMakePlan(cfg.secret, id, a, id in s.d.book, ws, []);
    assert Dos(ws) + [] == Dos(ws);
    DosMention(ws, id);
  }

  /** The bank's answer is in: what is left is to settle. */
  lemma SettleKeepsSound(cfg: Config, s: Shared, worker: nat, r: InFlight, answer: Answer, returned: seq<(Id, Receipt)>)
    requires Sound(cfg, s) && worker in s.workers && s.workers[worker].todo != []
        && About(s.workers[worker].todo[0], r.id)
    requires RowOk(r, AuditAt(cfg, s, r.id)) && ReturnedOk(s.(returned := returned))
    ensures Sound(cfg, WithTodo(s.(returned := returned), worker, Dos(SettleScript(r, answer))))
  {
    forall id
      ensures PlanOk(cfg.secret, id, AuditAt(cfg, s, id), id in s.d.book, Dos(SettleScript(r, answer)))
      ensures Mentions(Dos(SettleScript(r, answer)), id) ==> Mentions(s.workers[worker].todo, id)
    {
      SettlePlanOk(cfg, s, r, answer, id);
    }
    ReplanKeepsSound(cfg, s, worker, Dos(SettleScript(r, answer)),
                     WithTodo(s.(returned := returned), worker, Dos(SettleScript(r, answer))));
  }

  lemma PassOn(cfg: Config, s: Shared, worker: nat, r: InFlight, next: Job)
    requires Sound(cfg, s) && worker in s.workers && s.workers[worker].todo != []
        && About(s.workers[worker].todo[0], r.id)
    requires (next.Check? || next.Debit?) && next.row == r && CallOk(r, AuditAt(cfg, s, r.id))
    ensures Sound(cfg, WithTodo(s, worker, [next]))
  {
    assert [next][1..] == [];
    assert s.workers[worker].todo[0] in s.workers[worker].todo;
    assert Mentions(s.workers[worker].todo, r.id);
    ReplanKeepsSound(cfg, s, worker, [next], WithTodo(s, worker, [next]));
  }

  lemma DebitKeepsSound(cfg: Config, s: Shared, worker: nat, r: InFlight, payment: Id)
    requires Sound(cfg, s) && worker in s.workers && s.workers[worker].todo != []
    requires s.workers[worker].todo[0] == Debit(r, payment)
    ensures Sound(cfg, DoJob(cfg, s, worker))
  {
    var receipt := Receipt(payment, r.action.amount, r.action.recipient);
    var todo := [Do(File(r.id, receipt)), Reread(r, receipt)];
    AboutPlan(cfg, s, worker, r.id);
    assert s.workers[worker].todo[0] in s.workers[worker].todo;
    assert Mentions(s.workers[worker].todo, r.id);
    assert todo[1..] == [todo[1]] && todo[1..][1..] == [];
    forall id
      ensures PlanOk(cfg.secret, id, AuditAt(cfg, s, id), id in s.d.book, todo)
    {
      assert PlanOk(cfg.secret, id, AuditAt(cfg, s, id), id in s.d.book || r.id == id, todo[1..]);
    }
    ReplanKeepsSound(cfg, s, worker, todo, DoJob(cfg, s, worker));
  }

  lemma AskKeepsSound(cfg: Config, s: Shared, worker: nat, r: InDoubt)
    requires Sound(cfg, s) && worker in s.workers && s.workers[worker].todo != []
        && About(s.workers[worker].todo[0], r.id)
    requires RowOk(r, AuditAt(cfg, s, r.id))
    ensures Sound(cfg, WithTodo(s, worker, Dos(ReconcileScript(r, Lookup(s.d.book, r.id)))))
  {
    var ws := ReconcileScript(r, Lookup(s.d.book, r.id));
    forall id
      ensures PlanOk(cfg.secret, id, AuditAt(cfg, s, id), id in s.d.book, Dos(ws))
      ensures Mentions(Dos(ws), id) ==> id == r.id
    {
      ReconcileOk(cfg, id, AuditAt(cfg, s, id), r, Lookup(s.d.book, r.id));
      WritesMakePlan(cfg.secret, id, AuditAt(cfg, s, id), id in s.d.book, ws, []);
      assert Dos(ws) + [] == Dos(ws);
      S.ReconcileQuiet(r, Lookup(s.d.book, r.id));
      DosMention(ws, id);
    }
    ReplanKeepsSound(cfg, s, worker, Dos(ws), WithTodo(s, worker, Dos(ws)));
  }

  /** The steps of `create_pix` and of the reconciliation query. */
  lemma CallKeepsSound(cfg: Config, s: Shared, worker: nat)
    requires Sound(cfg, s) && worker in s.workers && s.workers[worker].todo != [] && !s.workers[worker].todo[0].Do?
    ensures Sound(cfg, DoJob(cfg, s, worker))
  {
    var todo := s.workers[worker].todo;
    var bank := MemoryIn(cfg, s, s.workers[worker].bank);
    match todo[0]
    case Call(r, payment) =>
      AboutPlan(cfg, s, worker, r.id);
      if r.id in s.d.book {
        var returned := s.returned + [(r.id, s.d.book[r.id])];
        SettleKeepsSound(cfg, s, worker, r, Paid(s.d.book[r.id]), returned);
      } else {
        PassOn(cfg, s, worker, r, Check(r, payment));
      }
    case Check(r, payment) =>
      AboutPlan(cfg, s, worker, r.id);
      var refusal := Refusal(cfg.contacts, bank, r.action);
      if refusal.Some? {
        SettleKeepsSound(cfg, s, worker, r, Refused(refusal.value), s.returned);
      } else {
        PassOn(cfg, s, worker, r, Debit(r, payment));
      }
    case Debit(r, payment) => DebitKeepsSound(cfg, s, worker, r, payment);
    case Reread(r, mine) =>
      AboutPlan(cfg, s, worker, r.id);
      if TimesOut(r.action.amount) {
        SettleKeepsSound(cfg, s, worker, r, NoAnswer, s.returned);
      } else {
        SettleKeepsSound(cfg, s, worker, r, Paid(s.d.book[r.id]), s.returned + [(r.id, s.d.book[r.id])]);
      }
    case AskBook(r) =>
      AboutPlan(cfg, s, worker, r.id);
      AskKeepsSound(cfg, s, worker, r);
  }

  lemma TrailAfter(cfg: Config, s: Shared, w: Write, id: Id)
    ensures AuditOf(cfg.secret, Trail(Apply(s.d, w).ledger, id)) == AuditStep(cfg.secret, id, AuditAt(cfg, s, id), w)
  {
    WriteIsLocal(cfg.secret, s.d, w, id);
    assert ViewOf(cfg.secret, Apply(s.d, w), id).audit == AuditOf(cfg.secret, Trail(Apply(s.d, w).ledger, id));
  }

  /** What one durable write leaves of the store's part of the invariant. */
  lemma WriteStoreOk(cfg: Config, s: Shared, worker: nat, id: Id)
    requires Sound(cfg, s) && worker in s.workers && s.workers[worker].todo != [] && s.workers[worker].todo[0].Do?
    ensures StoreOk(cfg, DoJob(cfg, s, worker), id)
  {
    hide AuditOf, Trail, Observe, ReceiptOk, Capped;
    var w := s.workers[worker].todo[0].write;
    assert StoreOk(cfg, s, id) && PlansOk(cfg, s, id);
    TrailAfter(cfg, s, w, id);
    if w.Append? && w.id == id {
      ObserveGrows(cfg.secret, AuditAt(cfg, s, id), w.entry);
      ObserveCapped(cfg.secret, AuditAt(cfg, s, id), w.entry);
    }
    if id in s.d.book {
      ReceiptStaysOk(s.d.book[id], AuditAt(cfg, s, id), AuditStep(cfg.secret, id, AuditAt(cfg, s, id), w));
    }
  }

  lemma OtherPlanOk(cfg: Config, s: Shared, worker: nat, other: nat, id: Id)
    requires Sound(cfg, s) && worker in s.workers && other in s.workers && other != worker
    requires s.workers[worker].todo != [] && s.workers[worker].todo[0].Do?
    ensures var s' := DoJob(cfg, s, worker);
      PlanOk(cfg.secret, id, AuditAt(cfg, s', id), id in s'.d.book, s.workers[other].todo)
  {
    var w, todo := s.workers[worker].todo[0].write, s.workers[other].todo;
    var s', a := DoJob(cfg, s, worker), AuditAt(cfg, s, id);
    assert PlansOk(cfg, s, id) && Unopened(cfg, s, id);
    TrailAfter(cfg, s, w, id);
    if Subject(w) == id {
      assert s.workers[worker].todo[0] in s.workers[worker].todo;
      assert Mentions(s.workers[worker].todo, id);
      if a.owner.None? {
        UnmentionedIsOk(cfg.secret, id, a, AuditAt(cfg, s', id), id in s.d.book, id in s'.d.book, todo);
      } else {
        if w.Append? {
          ObserveGrows(cfg.secret, a, w.entry);
        }
        PlanStaysOk(cfg.secret, id, a, AuditAt(cfg, s', id), id in s.d.book, id in s'.d.book, todo);
      }
    }
  }

  lemma OwnPlanOk(cfg: Config, s: Shared, worker: nat, id: Id)
    requires Sound(cfg, s) && worker in s.workers && s.workers[worker].todo != [] && s.workers[worker].todo[0].Do?
    ensures var s' := DoJob(cfg, s, worker);
      PlanOk(cfg.secret, id, AuditAt(cfg, s', id), id in s'.d.book, s'.workers[worker].todo)
  {
    assert PlansOk(cfg, s, id);
    TrailAfter(cfg, s, s.workers[worker].todo[0].write, id);
  }

  lemma WriteUnopened(cfg: Config, s: Shared, worker: nat, id: Id)
    requires Sound(cfg, s) && worker in s.workers && s.workers[worker].todo != [] && s.workers[worker].todo[0].Do?
    ensures Unopened(cfg, DoJob(cfg, s, worker), id)
  {
    var todo := s.workers[worker].todo;
    var w, s' := todo[0].write, DoJob(cfg, s, worker);
    assert PlansOk(cfg, s, id) && Unopened(cfg, s, id);
    TrailAfter(cfg, s, w, id);
    assert todo[0] in todo;
    assert forall job | job in todo[1..] :: job in todo;
    assert Mentions(todo[1..], id) ==> Mentions(todo, id);
    assert Subject(w) == id ==> About(todo[0], id) && Mentions(todo, id);
    assert PlanOk(cfg.secret, id, AuditAt(cfg, s, id), id in s.d.book, todo);
  }

  lemma WriteKeepsSound(cfg: Config, s: Shared, worker: nat)
    requires Sound(cfg, s) && worker in s.workers && s.workers[worker].todo != [] && s.workers[worker].todo[0].Do?
    ensures Sound(cfg, DoJob(cfg, s, worker))
  {
    var s' := DoJob(cfg, s, worker);
    forall id
      ensures StoreOk(cfg, s', id) && PlansOk(cfg, s', id) && Unopened(cfg, s', id)
    {
      WriteStoreOk(cfg, s, worker, id);
      WriteUnopened(cfg, s, worker, id);
      forall v | v in s'.workers
        ensures PlanOk(cfg.secret, id, AuditAt(cfg, s', id), id in s'.d.book, s'.workers[v].todo)
      {
        if v == worker {
          OwnPlanOk(cfg, s, worker, id);
        } else {
          OtherPlanOk(cfg, s, worker, v, id);
        }
      }
    }
  }

  lemma RewriteKeepsSound(cfg: Config, s: Shared, id: Id, action: CreatePix)
    requires Sound(cfg, s)
    ensures Sound(cfg, s.(d := S.Tampered(s.d, id, action)))
  {
    var s' := s.(d := S.Tampered(s.d, id, action));
    forall i
      ensures StoreOk(cfg, s', i) && PlansOk(cfg, s', i) && Unopened(cfg, s', i)
    {
      assert StoreOk(cfg, s, i) && PlansOk(cfg, s, i) && Unopened(cfg, s, i);
    }
  }

  lemma TickKeepsSound(cfg: Config, s: Shared, m: Tick)
    requires Sound(cfg, s)
    ensures Sound(cfg, Ticked(cfg, s, m))
  {
    if Possible(s, m) {
      match m
      case Begin(_, _, _, _) => BeginKeepsSound(cfg, s, m);
      case Turn(worker) =>
        if s.workers[worker].todo[0].Do? {
          WriteKeepsSound(cfg, s, worker);
        } else {
          CallKeepsSound(cfg, s, worker);
        }
      case Die(worker) =>
        ReplanKeepsSound(cfg, s, worker, [], Ticked(cfg, s, m));
      case Rewrite(id, action) => RewriteKeepsSound(cfg, s, id, action);
    }
  }

  lemma {:induction false} EveryInterleavingIsSound(cfg: Config, ticks: seq<Tick>)
    ensures Sound(cfg, Interleave(cfg, ticks))
  {
    if ticks == [] {
      forall id
        ensures StoreOk(cfg, NOBODY, id) && PlansOk(cfg, NOBODY, id) && Unopened(cfg, NOBODY, id)
      {
      }
    } else {
      EveryInterleavingIsSound(cfg, ticks[..|ticks| - 1]);
      TickKeepsSound(cfg, Interleave(cfg, ticks[..|ticks| - 1]), ticks[|ticks| - 1]);
    }
  }

  // ---------------------------------------------------------------- what holds in every interleaving

  lemma TickKeepsBook(cfg: Config, s: Shared, m: Tick, id: Id)
    requires id in s.d.book
    ensures id in Ticked(cfg, s, m).d.book && Ticked(cfg, s, m).d.book[id] == s.d.book[id]
  {
  }

  /** The book never holds two rows for one intent, and a row once there is never
      rewritten, however workers interleave, die and restart. */
  lemma {:induction false} BookRowsAreFinal(cfg: Config, ticks: seq<Tick>, n: nat, id: Id)
    requires n <= |ticks| && id in Interleave(cfg, ticks[..n]).d.book
    ensures id in Interleave(cfg, ticks).d.book
    ensures Interleave(cfg, ticks).d.book[id] == Interleave(cfg, ticks[..n]).d.book[id]
    decreases |ticks|
  {
    if n == |ticks| {
      assert ticks[..n] == ticks;
    } else {
      var before := ticks[..|ticks| - 1];
      assert before[..n] == ticks[..n];
      BookRowsAreFinal(cfg, before, n, id);
      TickKeepsBook(cfg, Interleave(cfg, before), ticks[|ticks| - 1], id);
    }
  }

  /** Every `create_pix` call that ever returns gives the row in the book, so all calls
      under one key give the same receipt. */
  lemma EveryCallReturnsTheRow(cfg: Config, ticks: seq<Tick>, i: nat, j: nat)
    requires i < |Interleave(cfg, ticks).returned| && j < |Interleave(cfg, ticks).returned|
    ensures var s := Interleave(cfg, ticks);
      var (key, receipt) := s.returned[i];
      && key in s.d.book && s.d.book[key] == receipt
      && (s.returned[j].0 == key ==> s.returned[j].1 == receipt)
  {
    EveryInterleavingIsSound(cfg, ticks);
  }

  /** Whenever a worker is about to read its insert back, the row is there: the receipt
      of its own it would fall back on is never given out in its place. */
  lemma FallbackIsDead(cfg: Config, ticks: seq<Tick>, worker: nat)
    requires var s := Interleave(cfg, ticks);
      worker in s.workers && s.workers[worker].todo != [] && s.workers[worker].todo[0].Reread?
    ensures var s := Interleave(cfg, ticks); s.workers[worker].todo[0].row.id in s.d.book
  {
    EveryInterleavingIsSound(cfg, ticks);
    var s := Interleave(cfg, ticks);
    AboutPlan(cfg, s, worker, s.workers[worker].todo[0].row.id);
  }

  /** Every row in the book was consented to first, in every interleaving: the trail holds
      policy's request for confirmation, the issue of a token against an action, the
      confirmation of that token for that action by the trail's own customer and session,
      and an execution request, in this order; the row pays that action, and no more than
      R$ 5 000. */
  lemma PaidMeansConsented(cfg: Config, ticks: seq<Tick>, id: Id)
    requires id in Interleave(cfg, ticks).d.book
    ensures var d := Interleave(cfg, ticks).d;
      var trail := Trail(d.ledger, id);
      && TrailOwner(trail).Some?
      && (id in d.rows ==> OwnerOf(d.rows[id]) == TrailOwner(trail).value)
      && d.book[id].amount <= HARD_LIMIT
      && exists given: Consent, i: nat, j: nat, k: nat, m: nat, l: nat ::
           && MatchesAction(d.book[id], given.action)
           && G.ConsentTrail(cfg.secret, trail, TrailOwner(trail).value, given, i, j, k, m, l)
  {
    EveryInterleavingIsSound(cfg, ticks);
    var s := Interleave(cfg, ticks);
    assert StoreOk(cfg, s, id);
    var given :| given in AuditAt(cfg, s, id).requested && MatchesAction(s.d.book[id], given.action);
    var a := AuditAt(cfg, s, id);
    assert given in a.confirmed + a.authorized + a.requested;
    OwnerIsFirstRequest(cfg.secret, Trail(s.d.ledger, id));
    RequestIsConsented(cfg, s, id, given);
  }

  lemma RequestIsConsented(cfg: Config, s: Shared, id: Id, given: Consent)
    requires given in AuditAt(cfg, s, id).requested
    ensures var trail := Trail(s.d.ledger, id);
      && TrailOwner(trail).Some?
      && exists i: nat, j: nat, k: nat, m: nat, l: nat ::
           G.ConsentTrail(cfg.secret, trail, TrailOwner(trail).value, given, i, j, k, m, l)
  {
    var trail := Trail(s.d.ledger, id);
    RequestedMeans(cfg.secret, trail, given);
    var i: nat, j: nat, k: nat, m: nat, l: nat :| RequestedAt(cfg.secret, trail, given, i, j, k, m, l);
    G.OwnerIsStable(trail, k);
    assert G.ConsentTrail(cfg.secret, trail, TrailOwner(trail).value, given, i, j, k, m, l);
  }

  // ---------------------------------------------------------------- which reading let a payment through

  /** Tick `k` began a confirmation of intent `id` that the plane let through: on the row
      it read the token was still live at the reading, the caller was the token's own
      customer and session, and the action had the digest the token was issued against.
      `given` is what it was a consent to, and when. */
  ghost predicate LetThroughAt(cfg: Config, ticks: seq<Tick>, k: nat, id: Id, given: Consent) {
    && k < |ticks| && ticks[k].Begin? && Possible(Interleave(cfg, ticks[..k]), ticks[k])
    && var d, op := Interleave(cfg, ticks[..k]).d, ticks[k].op;
      && Accepted(cfg, d, op)
      && var r := ByToken(d, op.token).value;
        && r.id == id
        && r.issuedAt.Some? && op.t1 - r.issuedAt.value <= CONFIRMATION_TTL
        && r.token == Some(op.token) && OwnerOf(r) == PrincipalOf(op.ctx)
        && given == Consent(op.token, op.t2, r.action)
  }

  ghost predicate LetThrough(cfg: Config, ticks: seq<Tick>, id: Id, given: Consent) {
    exists k: nat :: LetThroughAt(cfg, ticks, k, id, given)
  }

  ghost predicate CallLetThrough(cfg: Config, ticks: seq<Tick>, r: Row) {
    r.token.Some? && r.confirmedAt.Some? && r.digest.Some? && LetThrough(cfg, ticks, r.id, ConsentIn(r))
  }

  /** A receipt that pays a consent on record, and let through. */
  ghost predicate Backed(cfg: Config, ticks: seq<Tick>, s: Shared, id: Id, receipt: Receipt) {
    exists given: Consent ::
      given in AuditAt(cfg, s, id).requested && MatchesAction(receipt, given.action)
          && LetThrough(cfg, ticks, id, given)
  }

  ghost predicate JobLetThrough(cfg: Config, ticks: seq<Tick>, s: Shared, job: Job) {
    match job
    case Do(Append(_, _)) => true
    case Do(Put(_)) => true
    case Do(File(id, receipt)) => Backed(cfg, ticks, s, id, receipt)
    case Call(r, _) => CallLetThrough(cfg, ticks, r)
    case Check(r, _) => CallLetThrough(cfg, ticks, r)
    case Debit(r, _) => CallLetThrough(cfg, ticks, r)
    case Reread(_, _) => true
    case AskBook(_) => true
  }

  ghost predicate PlanLetThrough(cfg: Config, ticks: seq<Tick>, s: Shared, todo: seq<Job>) {
    forall job | job in todo :: JobLetThrough(cfg, ticks, s, job)
  }

  ghost predicate AllLetThrough(cfg: Config, ticks: seq<Tick>, s: Shared) {
    && (forall id | id in s.d.book :: Backed(cfg, ticks, s, id, s.d.book[id]))
    && (forall w | w in s.workers :: PlanLetThrough(cfg, ticks, s, s.workers[w].todo))
  }

  lemma LetThroughStays(cfg: Config, ticks: seq<Tick>, id: Id, given: Consent)
    requires ticks != [] && LetThrough(cfg, ticks[..|ticks| - 1], id, given)
    ensures LetThrough(cfg, ticks, id, given)
  {
    var before := ticks[..|ticks| - 1];
    var k: nat :| LetThroughAt(cfg, before, k, id, given);
    assert before[..k] == ticks[..k];
    assert LetThroughAt(cfg, ticks, k, id, given);
  }

  /** What was let through stays so as ticks go by and the trails grow. */
  lemma JobStays(cfg: Config, ticks: seq<Tick>, s: Shared, s': Shared, job: Job)
    requires ticks != [] && JobLetThrough(cfg, ticks[..|ticks| - 1], s, job)
    requires forall id :: AuditAt(cfg, s, id).requested <= AuditAt(cfg, s', id).requested
    ensures JobLetThrough(cfg, ticks, s', job)
  {
    hide LetThrough, AuditOf, Trail;
    match job
    case Do(File(id, receipt)) => BackedStays(cfg, ticks, s, s', id, receipt);
    case Call(r, _) => LetThroughStays(cfg, ticks, r.id, ConsentIn(r));
    case Check(r, _) => LetThroughStays(cfg, ticks, r.id, ConsentIn(r));
    case Debit(r, _) => LetThroughStays(cfg, ticks, r.id, ConsentIn(r));
    case _ =>
  }

  lemma BackedStays(cfg: Config, ticks: seq<Tick>, s: Shared, s': Shared, id: Id, receipt: Receipt)
    requires ticks != [] && Backed(cfg, ticks[..|ticks| - 1], s, id, receipt)
    requires AuditAt(cfg, s, id).requested <= AuditAt(cfg, s', id).requested
    ensures Backed(cfg, ticks, s', id, receipt)
  {
    hide LetThrough, AuditOf, Trail;
    var given :| && given in AuditAt(cfg, s, id).requested && MatchesAction(receipt, given.action)
                 && LetThrough(cfg, ticks[..|ticks| - 1], id, given);
    LetThroughStays(cfg, ticks, id, given);
    assert given in AuditAt(cfg, s', id).requested;
  }

  lemma TickGrowsTrails(cfg: Config, s: Shared, m: Tick, id: Id)
    ensures Grows(AuditAt(cfg, s, id), AuditAt(cfg, Ticked(cfg, s, m), id))
  {
    hide AuditOf, Trail, DoJob;
    if Possible(s, m) && m.Turn? && s.workers[m.worker].todo[0].Do? {
      TurnWrites(cfg, s, m.worker);
      var w := s.workers[m.worker].todo[0].write;
      TrailAfter(cfg, s, w, id);
      if w.Append? {
        ObserveGrows(cfg.secret, AuditAt(cfg, s, id), w.entry);
      }
    } else if Possible(s, m) && m.Turn? {
      TurnWrites(cfg, s, m.worker);
    }
  }

  lemma TurnWrites(cfg: Config, s: Shared, worker: nat)
    requires worker in s.workers && s.workers[worker].todo != []
    ensures var job := s.workers[worker].todo[0];
      DoJob(cfg, s, worker).d == if job.Do? then Apply(s.d, job.write) else s.d
  {
  }

  /** Only a debit touches balances. */
  lemma TurnTakes(cfg: Config, s: Shared, worker: nat)
    requires worker in s.workers && s.workers[worker].todo != []
    ensures var s', job, bank := DoJob(cfg, s, worker), s.workers[worker].todo[0], s.workers[worker].bank;
      if job.Debit? then
        && s'.banks == s.banks[bank := Debited(MemoryIn(cfg, s, bank), job.row.action)]
        && s'.debits == s.debits[bank := DebitsOf(s, bank) + [PixCall(job.row.id, job.row.action, job.payment)]]
      else s'.banks == s.banks && s'.debits == s.debits
  {
    hide Apply, SettleScript, ReconcileScript, Dos, Refusal, Debited;
  }

  lemma {:induction false} OkFilesNothing(secret: string, id: Id, a: Audit, ws: seq<Write>)
    requires WritesOk(secret, id, a, ws)
    ensures forall i | 0 <= i < |ws| :: !ws[i].File?
    decreases |ws|
  {
    if ws != [] {
      OkFilesNothing(secret, id, AuditStep(secret, id, a, ws[0]), ws[1..]);
    }
  }

  lemma QuietPlan(cfg: Config, ticks: seq<Tick>, s: Shared, ws: seq<Write>)
    requires forall i | 0 <= i < |ws| :: !ws[i].File?
    ensures PlanLetThrough(cfg, ticks, s, Dos(ws))
  {
    forall job | job in Dos(ws)
      ensures JobLetThrough(cfg, ticks, s, job)
    {
      assert job.Do? && !job.write.File?;
    }
  }

  lemma BeginLetsThrough(cfg: Config, ticks: seq<Tick>, s: Shared, m: Tick)
    requires ticks != [] && m == ticks[|ticks| - 1] && s == Interleave(cfg, ticks[..|ticks| - 1])
    requires m.Begin? && Possible(s, m)
    ensures PlanLetThrough(cfg, ticks, Ticked(cfg, s, m), Plan(cfg, s.d, m.op, m.seen))
  {
    hide Sound, Interleave, EffectOf, CallLetThrough, LetThrough, SubmittedRow;
    EveryInterleavingIsSound(cfg, ticks[..|ticks| - 1]);
    var op, s' := m.op, Ticked(cfg, s, m);
    if Accepted(cfg, s.d, op) {
      AcceptedLetsThrough(cfg, ticks, s, m);
      var r := ByToken(s.d, op.token).value;
      var script := ConsentScript(r, op.ctx, op.token, op.t2);
      assert forall i | 0 <= i < |script| :: !script[i].File?;
      QuietPlan(cfg, ticks, s', script);
    } else if op.ReconcileOp? && OwnedByCustomer(s.d, op.ctx, op.id).Some? && s.d.rows[op.id].state == Unknown {
    } else {
      ScriptPlanOk(cfg, s, op, m.seen, "");
      OkFilesNothing(cfg.secret, "", AuditAt(cfg, s, ""), EffectOf(cfg, s.d, m.seen, op).script);
      QuietPlan(cfg, ticks, s', EffectOf(cfg, s.d, m.seen, op).script);
    }
  }

  lemma AcceptedLetsThrough(cfg: Config, ticks: seq<Tick>, s: Shared, m: Tick)
    requires ticks != [] && m == ticks[|ticks| - 1] && s == Interleave(cfg, ticks[..|ticks| - 1])
    requires Sound(cfg, s) && m.Begin? && Possible(s, m) && Accepted(cfg, s.d, m.op)
    ensures CallLetThrough(cfg, ticks, SubmittedRow(ByToken(s.d, m.op.token).value, m.op.ctx, m.op.t2))
  {
    var r := ByToken(s.d, m.op.token).value;
    FoundByToken(cfg, s, m.op.token);
    assert LetThroughAt(cfg, ticks, |ticks| - 1, r.id, Consent(m.op.token, m.op.t2, r.action));
  }

  lemma SettleIsQuiet(cfg: Config, ticks: seq<Tick>, s: Shared, r: InFlight, answer: Answer)
    ensures PlanLetThrough(cfg, ticks, s, Dos(SettleScript(r, answer)))
  {
    QuietPlan(cfg, ticks, s, SettleScript(r, answer));
  }

  lemma ReconcileIsQuiet(cfg: Config, ticks: seq<Tick>, s: Shared, r: InDoubt, receipt: Option<Receipt>)
    ensures PlanLetThrough(cfg, ticks, s, Dos(ReconcileScript(r, receipt)))
  {
    QuietPlan(cfg, ticks, s, ReconcileScript(r, receipt));
  }

  /** A job leaves jobs behind that only pay what it was let through to pay. */
  lemma TurnLetsThrough(cfg: Config, ticks: seq<Tick>, s: Shared, s': Shared, worker: nat)
    requires Sound(cfg, s) && worker in s.workers && s.workers[worker].todo != []
    requires s' == DoJob(cfg, s, worker) && PlanLetThrough(cfg, ticks, s', s.workers[worker].todo)
    ensures PlanLetThrough(cfg, ticks, s', s'.workers[worker].todo)
  {
    hide Sound, AuditOf, Trail, LetThrough, SettleScript, ReconcileScript, Refusal;
    var todo, todo' := s.workers[worker].todo, s'.workers[worker].todo;
    assert JobLetThrough(cfg, ticks, s', todo[0]);
    match todo[0]
    case Do(_) => assert forall job | job in todo' :: job in todo;
    case Call(r, _) =>
      if r.id in s.d.book {
        SettleIsQuiet(cfg, ticks, s', r, Paid(s.d.book[r.id]));
      }
    case Check(r, _) =>
      var refusal := Refusal(cfg.contacts, MemoryIn(cfg, s, s.workers[worker].bank), r.action);
      if refusal.Some? {
        SettleIsQuiet(cfg, ticks, s', r, Refused(refusal.value));
      }
    case Debit(r, payment) =>
      AboutPlan(cfg, s, worker, r.id);
      var receipt := Receipt(payment, r.action.amount, r.action.recipient);
      assert s'.d == s.d && ConsentIn(r) in AuditAt(cfg, s', r.id).requested;
      assert Backed(cfg, ticks, s', r.id, receipt);
    case Reread(r, mine) =>
      var stored := if r.id in s.d.book then s.d.book[r.id] else mine;
      SettleIsQuiet(cfg, ticks, s', r, NoAnswer);
      SettleIsQuiet(cfg, ticks, s', r, Paid(stored));
    case AskBook(r) => ReconcileIsQuiet(cfg, ticks, s', r, Lookup(s.d.book, r.id));
  }

  lemma TurnBacksBook(cfg: Config, ticks: seq<Tick>, s: Shared, s': Shared, worker: nat, id: Id)
    requires worker in s.workers && s.workers[worker].todo != [] && s' == DoJob(cfg, s, worker)
    requires PlanLetThrough(cfg, ticks, s', s.workers[worker].todo)
    requires id in s'.d.book && (id in s.d.book ==> Backed(cfg, ticks, s', id, s.d.book[id]))
    ensures Backed(cfg, ticks, s', id, s'.d.book[id])
  {
    TurnWrites(cfg, s, worker);
    assert JobLetThrough(cfg, ticks, s', s.workers[worker].todo[0]);
  }

  lemma {:induction false} PaymentsLetThrough(cfg: Config, ticks: seq<Tick>)
    ensures AllLetThrough(cfg, ticks, Interleave(cfg, ticks))
    decreases |ticks|
  {
    if ticks != [] {
      var before, m := ticks[..|ticks| - 1], ticks[|ticks| - 1];
      PaymentsLetThrough(cfg, before);
      EveryInterleavingIsSound(cfg, before);
      TickLetsThrough(cfg, ticks, Interleave(cfg, before), m);
    }
  }

  lemma TickLetsThrough(cfg: Config, ticks: seq<Tick>, s: Shared, m: Tick)
    requires ticks != [] && m == ticks[|ticks| - 1] && s == Interleave(cfg, ticks[..|ticks| - 1])
    requires Sound(cfg, s) && AllLetThrough(cfg, ticks[..|ticks| - 1], s)
    ensures AllLetThrough(cfg, ticks, Ticked(cfg, s, m))
  {
    hide Interleave, Sound, JobLetThrough, Backed, Plan, AuditOf, Trail, DoJob;
    var s' := Ticked(cfg, s, m);
    forall id
      ensures AuditAt(cfg, s, id).requested <= AuditAt(cfg, s', id).requested
    {
      TickGrowsTrails(cfg, s, m, id);
    }
    forall w | w in s.workers
      ensures PlanLetThrough(cfg, ticks, s', s.workers[w].todo)
    {
      forall job | job in s.workers[w].todo
        ensures JobLetThrough(cfg, ticks, s', job)
      {
        assert PlanLetThrough(cfg, ticks[..|ticks| - 1], s, s.workers[w].todo);
        JobStays(cfg, ticks, s, s', job);
      }
    }
    forall id | id in s.d.book
      ensures Backed(cfg, ticks, s', id, s.d.book[id])
    {
      BackedStays(cfg, ticks, s, s', id, s.d.book[id]);
    }
    if Possible(s, m) {
      match m
      case Begin(_, _, _, _) => BeginLetsThrough(cfg, ticks, s, m);
      case Turn(worker) =>
        TurnLetsThrough(cfg, ticks, s, s', worker);
        TurnElsewhere(cfg, s, worker);
        forall id | id in s'.d.book
          ensures Backed(cfg, ticks, s', id, s'.d.book[id])
        {
          TurnBacksBook(cfg, ticks, s, s', worker, id);
        }
      case Die(_) =>
      case Rewrite(_, _) =>
    }
  }

  lemma TodoElsewhere(s: Shared, worker: nat, todo: seq<Job>)
    requires worker in s.workers
    ensures var s' := WithTodo(s, worker, todo);
      && s'.workers.Keys == s.workers.Keys
      && forall w | w in s.workers && w != worker :: s'.workers[w] == s.workers[w]
  {
  }

  lemma TurnElsewhere(cfg: Config, s: Shared, worker: nat)
    requires worker in s.workers && s.workers[worker].todo != []
    ensures var s' := DoJob(cfg, s, worker);
      && s'.workers.Keys == s.workers.Keys
      && forall w | w in s.workers && w != worker :: s'.workers[w] == s.workers[w]
  {
    hide Apply, SettleScript, ReconcileScript, Dos, Refusal, Debited, WithTodo;
    forall x: Shared, todo | x.workers == s.workers
      ensures var s' := WithTodo(x, worker, todo);
        && s'.workers.Keys == s.workers.Keys
        && forall w | w in s.workers && w != worker :: s'.workers[w] == s.workers[w]
    {
      TodoElsewhere(x, worker, todo);
    }
  }

  lemma {:induction false} OwnerStays(cfg: Config, ticks: seq<Tick>, k: nat, id: Id)
    requires k <= |ticks| && AuditAt(cfg, Interleave(cfg, ticks[..k]), id).owner.Some?
    ensures AuditAt(cfg, Interleave(cfg, ticks), id).owner == AuditAt(cfg, Interleave(cfg, ticks[..k]), id).owner
    decreases |ticks|
  {
    if k == |ticks| {
      assert ticks[..k] == ticks;
    } else {
      var before := ticks[..|ticks| - 1];
      assert before[..k] == ticks[..k];
      OwnerStays(cfg, before, k, id);
      TickGrowsTrails(cfg, Interleave(cfg, before), ticks[|ticks| - 1], id);
    }
  }

  /** The row under key `id` pays for what tick `n` let through: the receipt pays that very
      action, and the trail holds that very consent, token, action and instant, given by
      that caller after policy's verdict and the issue, authorized at an assurance that is
      enough, and before an execution request. */
  ghost predicate PaidUnder(cfg: Config, ticks: seq<Tick>, id: Id, n: nat, given: Consent)
    requires id in Interleave(cfg, ticks).d.book
  {
    var d := Interleave(cfg, ticks).d;
    && LetThroughAt(cfg, ticks, n, id, given)
    && MatchesAction(d.book[id], given.action)
    && exists i: nat, j: nat, k: nat, m: nat, l: nat ::
         G.ConsentTrail(cfg.secret, Trail(d.ledger, id), PrincipalOf(ticks[n].op.ctx), given, i, j, k, m, l)
  }

  /** Whatever was paid, in every interleaving, was let through: some worker began a
      confirmation of that intent which, on the row it read, came from the token's own
      customer and session, at a clock reading within the token's lifetime, and of an
      action with the digest the token was issued against; and the row pays for that. */
  lemma PaidWasLetThrough(cfg: Config, ticks: seq<Tick>, id: Id)
    requires id in Interleave(cfg, ticks).d.book
    ensures exists n: nat, given: Consent :: PaidUnder(cfg, ticks, id, n, given)
  {
    PaymentsLetThrough(cfg, ticks);
    var s := Interleave(cfg, ticks);
    var trail := Trail(s.d.ledger, id);
    assert Backed(cfg, ticks, s, id, s.d.book[id]);
    hide Interleave, Trail, AuditOf;
    var given :| && given in AuditAt(cfg, s, id).requested && MatchesAction(s.d.book[id], given.action)
                 && LetThrough(cfg, ticks, id, given);
    var n: nat :| LetThroughAt(cfg, ticks, n, id, given);
    CallerOwnsTheTrail(cfg, ticks, n, id, given);
    RequestIsConsented(cfg, s, id, given);
    var i: nat, j: nat, k: nat, m: nat, l: nat :|
      G.ConsentTrail(cfg.secret, trail, TrailOwner(trail).value, given, i, j, k, m, l);
    assert G.ConsentTrail(cfg.secret, trail, PrincipalOf(ticks[n].op.ctx), given, i, j, k, m, l);
    assert PaidUnder(cfg, ticks, id, n, given);
  }

  lemma CallerOwnsTheTrail(cfg: Config, ticks: seq<Tick>, n: nat, id: Id, given: Consent)
    requires LetThroughAt(cfg, ticks, n, id, given)
    ensures TrailOwner(Trail(Interleave(cfg, ticks).d.ledger, id)) == Some(PrincipalOf(ticks[n].op.ctx))
  {
    var s := Interleave(cfg, ticks[..n]);
    EveryInterleavingIsSound(cfg, ticks[..n]);
    FoundByToken(cfg, s, ticks[n].op.token);
    OwnerStays(cfg, ticks, n, id);
    OwnerIsFirstRequest(cfg.secret, Trail(Interleave(cfg, ticks).d.ledger, id));
  }
}
