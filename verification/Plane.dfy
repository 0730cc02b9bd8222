/** What each method of the control plane writes, in order (src/control_plane/plane.py).

    The store copies on `get` and `put` (src/control_plane/pgstore.py), so an operation
    is the sequence of durable writes it makes, every one committed on its own: a ledger
    append, an upserted row, or a receipt filed under a key. One operation runs with
    nothing beside it here, so the whole sequence is known from the state it starts in;
    a crash leaves some prefix of it behind. */
module Plane {
  import opened Actions
  import opened Policy
  import opened Machine
  import opened Bank

  const DEFAULT_ACCOUNT := "checking_001"

  /** A bank's configuration and the key of the action digest. */
  datatype Config = Config(
    contacts: seq<Contact>,
    accounts: map<string, int>,
    paidBefore: set<string>,
    secret: string)

  function OpeningMemory(cfg: Config): BankMemory {
    BankMemory(cfg.accounts, cfg.paidBefore)
  }

  // ---------------------------------------------------------------- durable state

  /** Everything that survives a process. `order` lists the rows by first insertion. */
  datatype Durable = Durable(order: seq<Id>, rows: map<Id, Row>, ledger: seq<Event>, book: map<Id, Receipt>)

  const EMPTY := Durable([], map[], [], map[])

  datatype Write =
    | Append(id: Id, entry: Entry)
    | Put(row: Row)
    | File(id: Id, receipt: Receipt)

  function Subject(w: Write): Id {
    if w.Put? then w.row.id else w.id
  }

  function Apply(d: Durable, w: Write): Durable {
    match w
    case Append(id, entry) => d.(ledger := d.ledger + [Event(id, entry)])
    case Put(row) =>
      d.(rows := d.rows[row.id := row],
         order := if row.id in d.rows then d.order else d.order + [row.id])
    case File(id, receipt) => if id in d.book then d else d.(book := d.book[id := receipt])
  }

  function ApplyAll(d: Durable, ws: seq<Write>): Durable
    decreases |ws|
  {
    if ws == [] then d else ApplyAll(Apply(d, ws[0]), ws[1..])
  }

  lemma {:induction false} ApplyAllConcat(d: Durable, ws: seq<Write>, vs: seq<Write>)
    ensures ApplyAll(d, ws + vs) == ApplyAll(ApplyAll(d, ws), vs)
    decreases |ws|
  {
    if ws == [] {
      assert ws + vs == vs;
    } else {
      assert (ws + vs)[1..] == ws[1..] + vs;
      ApplyAllConcat(Apply(d, ws[0]), ws[1..], vs);
    }
  }

  /** `by_confirmation` over a dictionary: the first row, in insertion order, with the token. */
  function ScanForToken(order: seq<Id>, rows: map<Id, Row>, token: Id): Option<Row> {
    if order == [] then None
    else if order[0] in rows && rows[order[0]].token == Some(token) then Some(rows[order[0]])
    else ScanForToken(order[1..], rows, token)
  }

  function ByToken(d: Durable, token: Id): Option<Row> {
    ScanForToken(d.order, d.rows, token)
  }

  /** `unsettled`: the rows in one state, in insertion order. */
  function InState(order: seq<Id>, rows: map<Id, Row>, s: State): seq<Row> {
    if order == [] then []
    else (if order[0] in rows && rows[order[0]].state == s then [rows[order[0]]] else []) + InState(order[1..], rows, s)
  }

  // ---------------------------------------------------------------- replies

  datatype Precondition = SourceAccount | SufficientFunds | ResolvedRecipient

  datatype Status = Decided(decision: Decision) | Settled(state: State)

  datatype Data =
    | NoData
    | Candidates(ids: seq<Id>)
    | Missing(preconditions: seq<Precondition>)
    | Summary(recipient: string, amount: Money, state: State, receipt: Option<Receipt>)
    | Balance(account: string, cents: int)

  datatype Reply =
    | Outcome(status: Status, intent: Option<Id>, token: Option<Id>, data: Data)
    | Events(trail: seq<Entry>)
    | Swept(ids: seq<Id>)
    | Raised

  const UNKNOWN_REFERENCE := Outcome(Decided(Deny), None, None, NoData)

  function NameOf(contacts: seq<Contact>, id: Id): string {
    if contacts == [] then id else if contacts[0].id == id then contacts[0].name else NameOf(contacts[1..], id)
  }

  predicate IsSettled(s: State) {
    s in {Completed, Failed, Cancelled, Unknown, Pending}
  }

  /** The intent as an outcome; `refused` is the override with DENY. */
  function StatusOf(cfg: Config, r: Row, refused: bool): Reply {
    Outcome(if refused || !IsSettled(r.state) then Decided(Deny) else Settled(r.state),
            Some(r.id), r.token,
            Summary(NameOf(cfg.contacts, r.action.recipient), r.action.amount, r.state, r.receipt))
  }

  // ---------------------------------------------------------------- hops

  predicate CanMove(r: Row, hop: Hop) {
    Target(r.state, hop).Some?
  }

  function Moved(r: Row, hop: Hop): Row
    requires CanMove(r, hop)
  {
    r.(state := Target(r.state, hop).value)
  }

  /** One hop, then saved: the ledger row goes first. Only the hop that issues a token
      names the token and the digest. */
  function Move(r: Row, hop: Hop): seq<Write>
    requires CanMove(r, hop)
  {
    var issues := hop == AwaitConfirmation;
    [Append(r.id, Transition(r.state, hop, Moved(r, hop).state,
                             if issues then r.token else None, if issues then r.digest else None)),
     Put(Moved(r, hop))]
  }

  datatype Effect = Effect(script: seq<Write>, memory: BankMemory, reply: Reply)

  // ---------------------------------------------------------------- risk, policy, and what policy asked for

  function VerdictOn(r: Row, memory: BankMemory, now: Instant): Verdict {
    Evaluate(r.action, r.context, RiskOf(r.action, r.context, memory.paidBefore), now)
  }

  function Issued(cfg: Config, r: Row, token: Id, at: Instant): Row {
    r.(token := Some(token), issuedAt := Some(at), digest := Some(ActionDigest(r.action, cfg.secret)))
  }

  function DecideHead(r: Row, memory: BankMemory, now: Instant): seq<Write> {
    [Append(r.id, RiskScored(RiskOf(r.action, r.context, memory.paidBefore))),
     Append(r.id, PolicyVerdict(VerdictOn(r, memory, now)))]
  }

  function ApplyVerdict(cfg: Config, r: Row, verdict: Verdict, token: Id, at: Instant): (seq<Write>, Reply)
    requires r.state == Validated
  {
    match verdict.decision
    case RequireStepUpAuth =>
      (Move(r, RequireStepUp),
       Outcome(Decided(RequireStepUpAuth), Some(r.id), None, SummaryOf(cfg, Moved(r, RequireStepUp))))
    case RequireConfirmation =>
      var issued := Issued(cfg, r, token, at);
      (Move(issued, AwaitConfirmation),
       Outcome(Decided(RequireConfirmation), Some(r.id), Some(token), SummaryOf(cfg, Moved(issued, AwaitConfirmation))))
    case _ =>
      (Move(r, Reject) + [Put(Moved(r, Reject))], StatusOf(cfg, Moved(r, Reject), true))
  }

  function SummaryOf(cfg: Config, r: Row): Data {
    Summary(NameOf(cfg.contacts, r.action.recipient), r.action.amount, r.state, None)
  }

  function Decide(cfg: Config, r: Row, memory: BankMemory, token: Id, t1: Instant, t2: Instant): (seq<Write>, Reply)
    requires r.state == Validated
  {
    var applied := ApplyVerdict(cfg, r, VerdictOn(r, memory, t1), token, t2);
    (DecideHead(r, memory, t1) + applied.0, applied.1)
  }

  // ---------------------------------------------------------------- propose

  function MissingPreconditions(cfg: Config, memory: BankMemory, action: CreatePix): seq<Precondition> {
    (if action.source !in memory.accounts then [SourceAccount]
     else if memory.accounts[action.source] < action.amount then [SufficientFunds]
     else [])
    + (if HasContact(cfg.contacts, action.recipient) then [] else [ResolvedRecipient])
  }

  function Ids(contacts: seq<Contact>): seq<Id> {
    seq(|contacts|, i requires 0 <= i < |contacts| => contacts[i].id)
  }

  function ProposeHead(ctx: Context, proposed: ProposedPix, text: string, id: Id, matches: seq<Contact>): seq<Write> {
    [Append(id, Request(ctx.customer, ctx.session, ctx.channel, text)),
     Append(id, Interpreted(proposed)),
     Append(id, Resolution(proposed.recipient, Ids(matches)))]
  }

  function Proposed(ctx: Context, proposed: ProposedPix, id: Id, recipient: Id): Row {
    NewRow(id, CreatePix(DEFAULT_ACCOUNT, recipient, proposed.amount), ctx)
  }

  function ProposeBody(cfg: Config, row: Row, memory: BankMemory, token: Id, t1: Instant, t2: Instant)
    : (seq<Write>, Reply)
    requires row.state == Created
  {
    var created := [Put(row), Append(row.id, CanonicalAction(row.action))];
    var missing := MissingPreconditions(cfg, memory, row.action);
    if missing != [] then
      (created + Move(row, Reject), Outcome(Decided(Deny), Some(row.id), None, Missing(missing)))
    else
      var decided := Decide(cfg, Moved(row, Validate), memory, token, t1, t2);
      (created + Move(row, Validate) + decided.0, decided.1)
  }

  function Propose(cfg: Config, memory: BankMemory, ctx: Context, proposed: ProposedPix, text: string,
                   id: Id, token: Id, t1: Instant, t2: Instant): Effect
  {
    var matches := FindContacts(cfg.contacts, proposed.recipient);
    var head := ProposeHead(ctx, proposed, text, id, matches);
    if |matches| != 1 then
      Effect(head, memory, Outcome(Decided(RequireMoreInfo), Some(id), None, Candidates(Ids(matches))))
    else
      var body := ProposeBody(cfg, Proposed(ctx, proposed, id, matches[0].id), memory, token, t1, t2);
      Effect(head + body.0, memory, body.1)
  }

  // ---------------------------------------------------------------- step-up

  function OwnedByCustomer(d: Durable, ctx: Context, id: Id): Option<Row> {
    if id in d.rows && d.rows[id].context.customer == ctx.customer then Some(d.rows[id]) else None
  }

  function Owned(d: Durable, ctx: Context, id: Id): Option<Row> {
    if id in d.rows && OwnerOf(d.rows[id]) == PrincipalOf(ctx) then Some(d.rows[id]) else None
  }

  function Strengthened(r: Row): Row {
    r.(context := r.context.(assurance := Strong))
  }

  function StepUpHead(r: Row): seq<Write> {
    [Put(Strengthened(r)), Append(r.id, SteppedUp)]
  }

  function StepUpBody(cfg: Config, r: Row, memory: BankMemory, token: Id, t1: Instant, t2: Instant): (seq<Write>, Reply)
    requires r.state == AwaitingStepUp
  {
    var strong := Strengthened(r);
    var decided := Decide(cfg, Moved(strong, StepUp), memory, token, t1, t2);
    (StepUpHead(r) + Move(strong, StepUp) + decided.0, decided.1)
  }

  function StepUpPix(cfg: Config, d: Durable, memory: BankMemory, ctx: Context, id: Id,
                     token: Id, t1: Instant, t2: Instant): Effect
  {
    var found := OwnedByCustomer(d, ctx, id);
    if found.None? then Effect([], memory, UNKNOWN_REFERENCE)
    else if found.value.state != AwaitingStepUp then Effect([], memory, StatusOf(cfg, found.value, true))
    else
      var body := StepUpBody(cfg, found.value, memory, token, t1, t2);
      Effect(body.0, memory, body.1)
  }

  // ---------------------------------------------------------------- confirm and execute

  function OwnedByToken(d: Durable, ctx: Context, token: Id): Option<Row> {
    var found := ByToken(d, token);
    if found.Some? && OwnerOf(found.value) == PrincipalOf(ctx) then found else None
  }

  predicate Expired(r: Row, now: Instant) {
    r.issuedAt.Some? && now - r.issuedAt.value > CONFIRMATION_TTL
  }

  predicate DigestMatches(cfg: Config, r: Row) {
    r.digest == Some(ActionDigest(r.action, cfg.secret))
  }

  predicate Willing(cfg: Config, r: Row, now: Instant) {
    r.state == AwaitingConfirmation && !Expired(r, now) && DigestMatches(cfg, r)
  }

  /** The confirmation gets as far as the bank. */
  predicate Reaches(cfg: Config, d: Durable, ctx: Context, token: Id, now: Instant) {
    OwnedByToken(d, ctx, token).Some? && Willing(cfg, ByToken(d, token).value, now)
  }

  function Consented(r: Row, ctx: Context, at: Instant): Row {
    r.(confirmedAt := Some(at), confirmedBy := Some(ctx.customer))
  }

  function ConsentHead(r: Row, ctx: Context, token: Id, at: Instant): seq<Write> {
    [Put(Consented(r, ctx, at)),
     Append(r.id, Confirmation(token, ctx.customer, ctx.session, ctx.channel, at, r.action))]
  }

  /** Consent, authorization and the submission that precedes the bank call. */
  function ConsentScript(r: Row, ctx: Context, token: Id, at: Instant): seq<Write>
    requires r.state == AwaitingConfirmation
  {
    var consented := Consented(r, ctx, at);
    var authorized := Moved(consented, Confirm);
    ConsentHead(r, ctx, token, at)
    + Move(consented, Confirm)
    + [Append(r.id, Authorization(r.context.assurance))]
    + Move(authorized, Submit)
    + [Append(r.id, ExecutionRequest(r.id))]
  }

  function SubmittedRow(r: Row, ctx: Context, at: Instant): Row
    requires r.state == AwaitingConfirmation
  {
    Consented(r, ctx, at).(state := Submitted)
  }

  function SettleHop(answer: Answer): Hop {
    match answer
    case NoAnswer => Timeout
    case Refused(_) => Fail
    case Paid(_) => Complete
  }

  function SettledRow(r: Row, answer: Answer): Row
    requires r.state == Submitted
  {
    match answer
    case NoAnswer => Moved(r, Timeout)
    case Refused(_) => Moved(r, Fail)
    case Paid(receipt) => Moved(r.(receipt := Some(receipt)), Complete)
  }

  /** What is written once the bank has answered, or has not. */
  function SettleScript(r: Row, answer: Answer): seq<Write>
    requires r.state == Submitted
  {
    [Append(r.id, BackendResponse(answer))]
    + match answer
      case NoAnswer => Move(r, Timeout)
      case Refused(_) => Move(r, Fail)
      case Paid(receipt) => Move(r.(receipt := Some(receipt)), Complete)
  }

  function FileScript(id: Id, filed: Option<Receipt>): seq<Write> {
    if filed.Some? then [File(id, filed.value)] else []
  }

  function ExecuteScript(r: Row, effect: PixEffect): seq<Write>
    requires r.state == Submitted
  {
    FileScript(r.id, effect.filed) + SettleScript(r, effect.answer)
  }

  function BankCall(cfg: Config, d: Durable, memory: BankMemory, r: Row, payment: Id): PixEffect {
    PixOn(cfg.contacts, memory, Lookup(d.book, r.id), r.action, payment)
  }

  function ConfirmRow(cfg: Config, d: Durable, memory: BankMemory, ctx: Context, r: Row, token: Id,
                      t1: Instant, t2: Instant, payment: Id): Effect
  {
    if r.state in {Completed, Submitted, Pending, Unknown} then
      Effect([Append(r.id, DuplicateConfirmation(r.state))], memory, StatusOf(cfg, r, false))
    else if r.state != AwaitingConfirmation then
      Effect([], memory, StatusOf(cfg, r, true))
    else if Expired(r, t1) then
      var cancelled := Moved(r, Cancel);
      Effect([Append(r.id, ConfirmationExpired(r.issuedAt.value))] + Move(r, Cancel) + [Put(cancelled)],
             memory, StatusOf(cfg, cancelled, false))
    else if !DigestMatches(cfg, r) then
      Effect([Append(r.id, DigestMismatch(r.digest, ActionDigest(r.action, cfg.secret)))],
             memory, StatusOf(cfg, r, true))
    else
      var submitted := SubmittedRow(r, ctx, t2);
      var call := BankCall(cfg, d, memory, submitted, payment);
      Effect(ConsentScript(r, ctx, token, t2) + ExecuteScript(submitted, call),
             call.memory, StatusOf(cfg, SettledRow(submitted, call.answer), false))
  }

  function ConfirmPix(cfg: Config, d: Durable, memory: BankMemory, ctx: Context, token: Id,
                      t1: Instant, t2: Instant, payment: Id): Effect
  {
    var found := OwnedByToken(d, ctx, token);
    if found.None? then Effect([], memory, UNKNOWN_REFERENCE)
    else ConfirmRow(cfg, d, memory, ctx, found.value, token, t1, t2, payment)
  }

  // ---------------------------------------------------------------- cancel, reconcile, sweep, reads

  function CancelPix(cfg: Config, d: Durable, memory: BankMemory, ctx: Context, token: Id): Effect {
    var found := OwnedByToken(d, ctx, token);
    if found.None? then Effect([], memory, UNKNOWN_REFERENCE)
    else
      var r := found.value;
      if !CanMove(r, Cancel) then
        Effect([Append(r.id, TransitionRefused(r.state, Cancel))], memory, StatusOf(cfg, r, true))
      else
        var cancelled := Moved(r, Cancel);
        Effect(Move(r, Cancel) + [Put(cancelled)], memory, StatusOf(cfg, cancelled, false))
  }

  function ReconciledRow(r: Row, receipt: Option<Receipt>): Row
    requires r.state == Unknown
  {
    if receipt.None? then Moved(r, Fail) else Moved(r.(receipt := receipt), Complete)
  }

  function ReconcileScript(r: Row, receipt: Option<Receipt>): seq<Write>
    requires r.state == Unknown
  {
    [Append(r.id, Reconciliation(receipt.Some?))]
    + (if receipt.None? then Move(r, Fail) + [Put(Moved(r, Fail))]
       else Move(r.(receipt := receipt), Complete))
  }

  function ReconcilePix(cfg: Config, d: Durable, memory: BankMemory, ctx: Context, id: Id): Effect {
    var found := OwnedByCustomer(d, ctx, id);
    if found.None? then Effect([], memory, UNKNOWN_REFERENCE)
    else if found.value.state != Unknown then Effect([], memory, StatusOf(cfg, found.value, false))
    else
      var r := found.value;
      var receipt := Lookup(d.book, r.id);
      Effect(ReconcileScript(r, receipt), memory, StatusOf(cfg, ReconciledRow(r, receipt), false))
  }

  function SweepRow(r: Row): seq<Write>
    requires r.state == Submitted
  {
    [Append(r.id, RestartSweep)] + Move(r, Timeout) + [Put(Moved(r, Timeout))]
  }

  function SweepScript(order: seq<Id>, rows: map<Id, Row>): seq<Write> {
    if order == [] then []
    else
      (if order[0] in rows && rows[order[0]].state == Submitted then SweepRow(rows[order[0]]) else [])
      + SweepScript(order[1..], rows)
  }

  function RowIds(rows: seq<Row>): seq<Id> {
    seq(|rows|, i requires 0 <= i < |rows| => rows[i].id)
  }

  function Sweep(d: Durable, memory: BankMemory): Effect {
    Effect(SweepScript(d.order, d.rows), memory, Swept(RowIds(InState(d.order, d.rows, Submitted))))
  }

  function Query(memory: BankMemory, ctx: Context, account: string, id: Id): Effect {
    var head := [Append(id, Request(ctx.customer, ctx.session, ctx.channel, account))];
    if Rank(ctx.assurance) < Rank(READ_CAPABILITY.requiredAssurance) then
      Effect(head + [Append(id, ReadResult(false))], memory, Outcome(Decided(Deny), Some(id), None, NoData))
    else if account !in memory.accounts then Effect(head, memory, Raised)
    else
      Effect(head + [Append(id, ReadResult(true))], memory,
             Outcome(Decided(Allow), Some(id), None, Balance(account, memory.accounts[account])))
  }

  function StatusPix(cfg: Config, d: Durable, memory: BankMemory, ctx: Context, id: Id): Effect {
    var found := Owned(d, ctx, id);
    Effect([], memory, if found.None? then UNKNOWN_REFERENCE else StatusOf(cfg, found.value, false))
  }

  /** Who opened a trail: the first event that names a customer and a session. */
  function TrailOwner(trail: seq<Entry>): Option<Principal> {
    if trail == [] then None
    else if trail[0].Request? then Some(Principal(trail[0].customer, trail[0].session))
    else TrailOwner(trail[1..])
  }

  function Explain(d: Durable, memory: BankMemory, ctx: Context, id: Id): Effect {
    var trail := Trail(d.ledger, id);
    Effect([], memory, Events(if TrailOwner(trail) == Some(PrincipalOf(ctx)) then trail else []))
  }

  // ---------------------------------------------------------------- one operation

  /** A call, with the fresh ids it will draw and the clock readings it will get:
      `t1` is the first reading (policy, expiry), `t2` the second (issue, consent). */
  datatype Op =
    | ProposeOp(ctx: Context, proposed: ProposedPix, text: string, id: Id, token: Id, t1: Instant, t2: Instant)
    | StepUpOp(ctx: Context, id: Id, token: Id, t1: Instant, t2: Instant)
    | ConfirmOp(ctx: Context, token: Id, t1: Instant, t2: Instant, payment: Id)
    | CancelOp(ctx: Context, token: Id)
    | ReconcileOp(ctx: Context, id: Id)
    | QueryOp(ctx: Context, account: string, id: Id)
    | StatusOp(ctx: Context, id: Id)
    | ExplainOp(ctx: Context, id: Id)
    | SweepOp

  function EffectOf(cfg: Config, d: Durable, memory: BankMemory, op: Op): Effect {
    match op
    case ProposeOp(ctx, proposed, text, id, token, t1, t2) =>
      Propose(cfg, memory, ctx, proposed, text, id, token, t1, t2)
    case StepUpOp(ctx, id, token, t1, t2) => StepUpPix(cfg, d, memory, ctx, id, token, t1, t2)
    case ConfirmOp(ctx, token, t1, t2, payment) => ConfirmPix(cfg, d, memory, ctx, token, t1, t2, payment)
    case CancelOp(ctx, token) => CancelPix(cfg, d, memory, ctx, token)
    case ReconcileOp(ctx, id) => ReconcilePix(cfg, d, memory, ctx, id)
    case QueryOp(ctx, account, id) => Query(memory, ctx, account, id)
    case StatusOp(ctx, id) => StatusPix(cfg, d, memory, ctx, id)
    case ExplainOp(ctx, id) => Explain(d, memory, ctx, id)
    case SweepOp => Sweep(d, memory)
  }

  /** The operations that open an intent's trail, under an id just drawn. */
  predicate Opening(op: Op) {
    op.ProposeOp? || op.QueryOp?
  }

  predicate Accepted(cfg: Config, d: Durable, op: Op) {
    op.ConfirmOp? && Reaches(cfg, d, op.ctx, op.token, op.t1)
  }

  lemma {:induction false} FilesNothing(d: Durable, ws: seq<Write>)
    requires forall x | x in ws :: !x.File?
    ensures ApplyAll(d, ws).book == d.book
    decreases |ws|
  {
    if ws != [] {
      assert ws[0] in ws;
      assert forall x | x in ws[1..] :: x in ws;
      FilesNothing(Apply(d, ws[0]), ws[1..]);
    }
  }

  lemma {:induction false} AppendsKeepRows(d: Durable, ws: seq<Write>)
    requires forall x | x in ws :: x.Append?
    ensures ApplyAll(d, ws).rows == d.rows && ApplyAll(d, ws).book == d.book
    decreases |ws|
  {
    if ws != [] {
      assert forall x | x in ws[1..] :: x in ws;
      assert ws[0] in ws;
      AppendsKeepRows(Apply(d, ws[0]), ws[1..]);
    }
  }

  lemma ConsentFilesNothing(d: Durable, r: Row, ctx: Context, token: Id, at: Instant)
    requires r.state == AwaitingConfirmation
    ensures ApplyAll(d, ConsentScript(r, ctx, token, at)).book == d.book
  {
    FilesNothing(d, ConsentScript(r, ctx, token, at));
  }

  ghost predicate Precedes(order: seq<Id>, x: Id, y: Id) {
    exists p, q | 0 <= p < q < |order| :: order[p] == x && order[q] == y
  }

  ghost predicate InOrderOf(order: seq<Id>, ids: seq<Id>) {
    && (forall id | id in ids :: id in order)
    && forall i, j | 0 <= i < j < |ids| :: Precedes(order, ids[i], ids[j])
  }

  lemma OrderOfMore(order: seq<Id>, head: seq<Id>, tail: seq<Id>)
    requires order != [] && InOrderOf(order[1..], tail) && (head == [] || head == [order[0]])
    ensures InOrderOf(order, head + tail)
  {
    var rest, ids, h := order[1..], head + tail, |head|;
    forall i, j | 0 <= i < j < |ids|
      ensures Precedes(order, ids[i], ids[j])
    {
      var y := tail[j - h];
      assert ids[j] == y && y in tail;
      if i < h {
        var q :| 0 <= q < |rest| && rest[q] == y;
        assert order[0] == ids[i] && order[q + 1] == y;
      } else {
        LaterPrecedes(order, tail[i - h], y);
      }
    }
  }

  lemma LaterPrecedes(order: seq<Id>, x: Id, y: Id)
    requires order != [] && Precedes(order[1..], x, y)
    ensures Precedes(order, x, y)
  {
    var rest := order[1..];
    var p, q :| 0 <= p < q < |rest| && rest[p] == x && rest[q] == y;
    assert order[p + 1] == x && order[q + 1] == y;
  }

  /** The rows in a state come in the store's order. */
  lemma {:induction false} InStateIsInOrder(order: seq<Id>, rows: map<Id, Row>, s: State)
    requires forall i | i in order :: i in rows && rows[i].id == i
    ensures InOrderOf(order, RowIds(InState(order, rows, s)))
    decreases |order|
  {
    hide InOrderOf, Precedes;
    if order == [] {
      assert InState(order, rows, s) == [];
      NothingIsInOrder();
    } else {
      assert forall i | i in order[1..] :: i in order;
      InStateIsInOrder(order[1..], rows, s);
      var tail, head := RowIds(InState(order[1..], rows, s)), if rows[order[0]].state == s then [order[0]] else [];
      OrderOfMore(order, head, tail);
      assert RowIds(InState(order, rows, s)) == head + tail;
    }
  }

  lemma NothingIsInOrder()
    ensures InOrderOf([], [])
  {
  }

  lemma {:induction false} InStateMeans(order: seq<Id>, rows: map<Id, Row>, s: State)
    requires forall i | i in order :: i in rows && rows[i].id == i
    requires forall i, j | 0 <= i < j < |order| :: order[i] != order[j]
    ensures var ids := RowIds(InState(order, rows, s));
      && (forall id :: id in ids <==> id in order && rows[id].state == s)
      && (forall i, j | 0 <= i < j < |ids| :: ids[i] != ids[j])
    decreases |order|
  {
    if order != [] {
      var rest := order[1..];
      assert forall i | i in rest :: i in order;
      InStateMeans(rest, rows, s);
      var tail := RowIds(InState(rest, rows, s));
      var ids := RowIds(InState(order, rows, s));
      assert order[0] !in rest;
      assert forall id :: id in order <==> id == order[0] || id in rest;
      assert ids == (if rows[order[0]].state == s then [order[0]] else []) + tail;
    }
  }

  lemma LastPutWins(d: Durable, ws: seq<Write>, r: Row)
    ensures r.id in ApplyAll(d, ws + [Put(r)]).rows && ApplyAll(d, ws + [Put(r)]).rows[r.id] == r
  {
    ApplyAllConcat(d, ws, [Put(r)]);
    assert [Put(r)][1..] == [];
  }
}
