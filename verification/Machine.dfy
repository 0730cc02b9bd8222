/** The payment intent, its table-driven state machine, and the events the ledger
    records (src/control_plane/state.py). */
module Machine {
  import opened Actions
  import opened Policy

  datatype State =
    | Created | Validated | AwaitingStepUp | AwaitingConfirmation | Authorized | Submitted
    | Pending | Completed | Failed | Cancelled | Reversed | Unknown

  datatype Hop =
    | Validate | Reject | RequireStepUp | AwaitConfirmation | StepUp | Cancel | Confirm
    | Submit | Complete | Pend | Fail | Timeout | Reverse

  /** The transition table; `None` is an illegal transition. */
  function Target(s: State, h: Hop): Option<State> {
    match (s, h)
    case (Created, Validate) => Some(Validated)
    case (Created, Reject) => Some(Cancelled)
    case (Validated, Reject) => Some(Cancelled)
    case (Validated, RequireStepUp) => Some(AwaitingStepUp)
    case (Validated, AwaitConfirmation) => Some(AwaitingConfirmation)
    case (AwaitingStepUp, StepUp) => Some(Validated)
    case (AwaitingStepUp, Cancel) => Some(Cancelled)
    case (AwaitingConfirmation, Confirm) => Some(Authorized)
    case (AwaitingConfirmation, Cancel) => Some(Cancelled)
    case (Authorized, Submit) => Some(Submitted)
    case (Submitted, Complete) => Some(Completed)
    case (Submitted, Pend) => Some(Pending)
    case (Submitted, Fail) => Some(Failed)
    case (Submitted, Timeout) => Some(Unknown)
    case (Pending, Complete) => Some(Completed)
    case (Pending, Fail) => Some(Failed)
    case (Unknown, Complete) => Some(Completed)
    case (Unknown, Fail) => Some(Failed)
    case (Completed, Reverse) => Some(Reversed)
    case _ => None
  }

  /** A hop has one target, whatever state it leaves. */
  function To(h: Hop): State {
    match h
    case Validate => Validated
    case Reject => Cancelled
    case RequireStepUp => AwaitingStepUp
    case AwaitConfirmation => AwaitingConfirmation
    case StepUp => Validated
    case Cancel => Cancelled
    case Confirm => Authorized
    case Submit => Submitted
    case Complete => Completed
    case Pend => Pending
    case Fail => Failed
    case Timeout => Unknown
    case Reverse => Reversed
  }

  /** ... and these are the states it may leave. */
  function From(h: Hop): set<State> {
    match h
    case Validate => {Created}
    case Reject => {Created, Validated}
    case RequireStepUp => {Validated}
    case AwaitConfirmation => {Validated}
    case StepUp => {AwaitingStepUp}
    case Cancel => {AwaitingStepUp, AwaitingConfirmation}
    case Confirm => {AwaitingConfirmation}
    case Submit => {Authorized}
    case Complete => {Submitted, Pending, Unknown}
    case Pend => {Submitted}
    case Fail => {Submitted, Pending, Unknown}
    case Timeout => {Submitted}
    case Reverse => {Completed}
  }

  lemma TableByHop(s: State, h: Hop)
    ensures Target(s, h) == if s in From(h) then Some(To(h)) else None
  {
  }

  /** The keyed fingerprint of an action, taken as the free injective function of
      the secret and the canonical action. */
  datatype Digest = Digest(secret: string, action: CreatePix)

  function ActionDigest(action: CreatePix, secret: string): Digest {
    Digest(secret, action)
  }

  const CONFIRMATION_TTL: int := 300_000_000

  /** What the bank files under an idempotency key. */
  datatype Receipt = Receipt(payment: Id, amount: Money, recipient: string)

  /** One intent as a store row: every field but `created_at` and `reason`. */
  datatype Row = Row(
    id: Id,
    action: CreatePix,
    context: Context,
    state: State,
    token: Option<Id>,
    issuedAt: Option<Instant>,
    digest: Option<Digest>,
    confirmedAt: Option<Instant>,
    confirmedBy: Option<string>,
    receipt: Option<Receipt>)

  function NewRow(id: Id, action: CreatePix, ctx: Context): Row {
    Row(id, action, ctx, Created, None, None, None, None, None, None)
  }

  function OwnerOf(r: Row): Principal {
    PrincipalOf(r.context)
  }

  datatype BankFault = UnknownRecipient | UnknownAccount | InsufficientFunds

  /** What the bank answers to a payment request. */
  datatype Answer = Paid(receipt: Receipt) | NoAnswer | Refused(fault: BankFault)

  /** The body of one ledger event. */
  datatype Entry =
    | Request(customer: string, session: string, channel: Channel, text: string)
    | Interpreted(proposed: ProposedPix)
    | Resolution(query: string, matches: seq<Id>)
    | CanonicalAction(action: CreatePix)
    | Transition(from: State, hop: Hop, to: State, token: Option<Id>, digest: Option<Digest>)
    | TransitionRefused(from: State, hop: Hop)
    | RiskScored(risk: Risk)
    | PolicyVerdict(verdict: Verdict)
    | SteppedUp
    | DuplicateConfirmation(state: State)
    | ConfirmationExpired(issuedAt: Instant)
    | DigestMismatch(expected: Option<Digest>, actual: Digest)
    | Confirmation(confirmationId: Id, confirmedBy: string, session: string, channel: Channel, at: Instant,
                   action: CreatePix)
    | Authorization(assurance: Assurance)
    | ExecutionRequest(key: Id)
    | BackendResponse(answer: Answer)
    | Reconciliation(found: bool)
    | RestartSweep
    | ReadResult(allowed: bool)

  datatype Event = Event(id: Id, entry: Entry)

  /** Every event of one intent, in order: `Ledger.for_intent`. */
  function Trail(ledger: seq<Event>, id: Id): seq<Entry> {
    if ledger == [] then []
    else
      var last := ledger[|ledger| - 1];
      Trail(ledger[..|ledger| - 1], id) + (if last.id == id then [last.entry] else [])
  }

  lemma TrailAppend(ledger: seq<Event>, e: Event, id: Id)
    ensures Trail(ledger + [e], id) == if e.id == id then Trail(ledger, id) + [e.entry] else Trail(ledger, id)
  {
    assert (ledger + [e])[..|ledger|] == ledger;
  }
}
