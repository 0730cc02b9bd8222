/** What crosses from the agent into the control plane: a payment as proposed, a payment
    once resolved, who asks and how strongly they are authenticated, and what each
    capability demands (src/control_plane/actions.py). Money is counted in cents. */
module Actions {
  datatype Option<+T> = None | Some(value: T)

  type Id = string

  /** Positive, two decimals, twelve digits: one cent up to 9 999 999 999,99. */
  type Money = c: int | 0 < c < 1_000_000_000_000 witness 1

  datatype Assurance = Low | Medium | Strong
  datatype RiskLevel = LowRisk | MediumRisk | HighRisk
  datatype Channel = WhatsApp | Web | Mobile

  function Rank(a: Assurance): nat {
    match a
    case Low => 0
    case Medium => 1
    case Strong => 2
  }

  datatype Context = Context(
    customer: string,
    session: string,
    channel: Channel,
    deviceTrusted: bool,
    assurance: Assurance)

  /** A conversation: the pair a confirmation is bound to. */
  datatype Principal = Principal(customer: string, session: string)

  function PrincipalOf(ctx: Context): Principal {
    Principal(ctx.customer, ctx.session)
  }

  /** What the agent may say. `recipient` is the name after strip and case folding. */
  datatype ProposedPix = ProposedPix(recipient: string, amount: Money)

  /** The canonical action. Only the control plane builds one. */
  datatype CreatePix = CreatePix(source: string, recipient: string, amount: Money)

  datatype Capability = Capability(
    risk: RiskLevel,
    requiresConfirmation: bool,
    requiredAssurance: Assurance)

  const PIX_CAPABILITY := Capability(HighRisk, true, Medium)
  const READ_CAPABILITY := Capability(LowRisk, false, Low)
}
