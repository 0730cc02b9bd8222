/** The control plane as it runs: methods that assign the fields of a shared intent,
    append to the ledger, save to the store and call the bank
    (src/control_plane/plane.py). Over the aliasing store each one writes exactly what
    the copying store would hold: the state after is the state before with the
    operation's script of durable writes applied. */
module Control {
  import opened Actions
  import opened Policy
  import opened Machine
  import opened Bank
  import opened Plane
  import opened Stores
  import P = Plane
  import Pg = PgBank
  import S = Serial

  /** Where the process dies inside the bank call (tests/fakes.py). */
  datatype CrashAt = BeforePay | AfterPay

  lemma ApplyOne(d: Durable, w: Write)
    ensures ApplyAll(d, [w]) == Apply(d, w)
  {
    assert [w][1..] == [];
  }

  lemma ApplyTwo(d: Durable, w: Write, x: Write)
    ensures ApplyAll(d, [w, x]) == Apply(Apply(d, w), x)
  {
    assert [w, x][1..] == [x];
    ApplyOne(Apply(d, w), x);
  }

  lemma ApplyThree(d: Durable, w: Write, x: Write, y: Write)
    ensures ApplyAll(d, [w, x, y]) == Apply(Apply(Apply(d, w), x), y)
  {
    assert [w, x, y][1..] == [x, y];
    ApplyTwo(Apply(d, w), x, y);
  }

  lemma InThree(d: Durable, a: seq<Write>, b: seq<Write>, c: seq<Write>)
    ensures ApplyAll(d, a + b + c) == ApplyAll(ApplyAll(ApplyAll(d, a), b), c)
  {
    ApplyAllConcat(d, a, b);
    ApplyAllConcat(d, a + b, c);
  }

  lemma LastWins(rows: map<Id, Row>, id: Id, r: Row, r': Row)
    ensures rows[id := r][id := r'] == rows[id := r']
  {
  }

  /** Whether the process dies in the bank call: before it, or once it has answered. A
      refusal or a timeout is an answer the call raises before the second point. */
  predicate Dies(crash: Option<CrashAt>, answer: Answer) {
    crash == Some(BeforePay) || (crash == Some(AfterPay) && answer.Paid?)
  }

  /** What is durable when the process dies there. */
  function Remains(crash: Option<CrashAt>, r: Row, ctx: Context, token: Id, at: Instant, call: PixEffect): seq<Write>
    requires r.state == AwaitingConfirmation
  {
    if crash == Some(AfterPay) then ConsentScript(r, ctx, token, at) + FileScript(r.id, call.filed)
    else ConsentScript(r, ctx, token, at)
  }

  function ConsentPart(r: Row, ctx: Context, token: Id, at: Instant): seq<Write>
    requires r.state == AwaitingConfirmation
  {
    var consented := Consented(r, ctx, at);
    ConsentHead(r, ctx, token, at) + P.Move(consented, Confirm) + [Append(r.id, Authorization(r.context.assurance))]
  }

  function SubmitPart(r: Row): seq<Write>
    requires r.state == Authorized
  {
    P.Move(r, Submit) + [Append(r.id, ExecutionRequest(r.id))]
  }

  lemma SettleInTwo(d: Durable, r: Row, answer: Answer)
    requires r.state == Submitted
    ensures var answered := if answer.Paid? then r.(receipt := Some(answer.receipt)) else r;
      && CanMove(answered, SettleHop(answer))
      && SettledRow(r, answer) == Moved(answered, SettleHop(answer))
      && ApplyAll(d, SettleScript(r, answer))
          == ApplyAll(Apply(d, Append(r.id, BackendResponse(answer))), P.Move(answered, SettleHop(answer)))
  {
    var response := Append(r.id, BackendResponse(answer));
    ApplyOne(d, response);
    ApplyAllConcat(d, [response], SettleScript(r, answer)[1..]);
  }

  function PaymentCall(cfg: Config, d: Durable, memory: BankMemory, ctx: Context, token: Id, t2: Instant,
                       payment: Id): PixEffect
    requires OwnedByToken(d, ctx, token).Some? && ByToken(d, token).value.state == AwaitingConfirmation
  {
    BankCall(cfg, d, memory, SubmittedRow(ByToken(d, token).value, ctx, t2), payment)
  }

  /** The parts a confirmation is carried out in are its script, whole or cut short. */
  lemma ScriptsAddUp(cfg: Config, d: Durable, memory: BankMemory, r: Row, ctx: Context, token: Id, at: Instant,
                     payment: Id, crash: Option<CrashAt>)
    requires r.state == AwaitingConfirmation
    ensures var submitted := SubmittedRow(r, ctx, at);
      var agreed := ApplyAll(d, ConsentPart(r, ctx, token, at));
      var before := ApplyAll(agreed, SubmitPart(Moved(Consented(r, ctx, at), Hop.Confirm)));
      var call := BankCall(cfg, d, memory, submitted, payment);
      var paid := ApplyAll(before, FileScript(r.id, call.filed));
      && call == BankCall(cfg, before, memory, submitted, payment)
      && submitted == Moved(Moved(Consented(r, ctx, at), Hop.Confirm), Hop.Submit)
      && ApplyAll(d, ConsentScript(r, ctx, token, at) + ExecuteScript(submitted, call))
          == ApplyAll(paid, SettleScript(submitted, call.answer))
      && ApplyAll(d, Remains(crash, r, ctx, token, at, call)) == if crash == Some(AfterPay) then paid else before
  {
    var submitted := SubmittedRow(r, ctx, at);
    var agree, submit := ConsentPart(r, ctx, token, at), SubmitPart(Moved(Consented(r, ctx, at), Hop.Confirm));
    ConsentInTwo(r, ctx, token, at);
    ConsentFilesNothing(d, r, ctx, token, at);
    assert submitted == Moved(Moved(Consented(r, ctx, at), Hop.Confirm), Hop.Submit);
    hide Target, SettleScript, ConsentPart, SubmitPart, ConsentScript;
    ApplyAllConcat(d, agree, submit);
    var call := BankCall(cfg, d, memory, submitted, payment);
    InThree(d, agree + submit, FileScript(r.id, call.filed), SettleScript(submitted, call.answer));
    ApplyAllConcat(d, agree + submit, FileScript(r.id, call.filed));
    assert (agree + submit) + FileScript(r.id, call.filed) + SettleScript(submitted, call.answer)
        == ConsentScript(r, ctx, token, at) + ExecuteScript(submitted, call);
  }

  lemma ReconcileInTwo(d: Durable, r: Row, receipt: Option<Receipt>)
    requires r.state == Unknown
    ensures CanMove(r, Fail) && CanMove(r, Complete)
    ensures ReconciledRow(r, receipt)
         == if receipt.None? then Moved(r, Fail) else Moved(r.(receipt := receipt), Complete)
    ensures var asked := Apply(d, Append(r.id, Reconciliation(receipt.Some?)));
      ApplyAll(d, ReconcileScript(r, receipt)) == ApplyAll(asked,
        if receipt.None? then P.Move(r, Fail) + [Put(Moved(r, Fail))] else P.Move(r.(receipt := receipt), Complete))
  {
    var asked := Append(r.id, Reconciliation(receipt.Some?));
    ApplyOne(d, asked);
    ApplyAllConcat(d, [asked], if receipt.None? then P.Move(r, Fail) + [Put(Moved(r, Fail))]
                               else P.Move(r.(receipt := receipt), Complete));
  }

  /** The sweep's script, row by row of what is stranded. */
  function SweepRows(rows: seq<Row>): seq<Write>
    requires forall k | 0 <= k < |rows| :: rows[k].state == Submitted
  {
    if rows == [] then [] else SweepRow(rows[0]) + SweepRows(rows[1..])
  }

  lemma {:induction false} SweepIsRowByRow(order: seq<Id>, rows: map<Id, Row>)
    ensures var stranded := InState(order, rows, Submitted);
      && (forall k | 0 <= k < |stranded| :: stranded[k].state == Submitted)
      && SweepScript(order, rows) == SweepRows(stranded)
  {
    if order != [] {
      SweepIsRowByRow(order[1..], rows);
      var rest := InState(order[1..], rows, Submitted);
      if order[0] in rows && rows[order[0]].state == Submitted {
        assert ([rows[order[0]]] + rest)[1..] == rest;
      } else {
        assert [] + rest == rest;
        assert [] + SweepScript(order[1..], rows) == SweepScript(order[1..], rows);
      }
    }
  }

  lemma SweepNothing(d: Durable)
    ensures ApplyAll(d, SweepRows([])) == d
  {
  }

  lemma {:induction false} SweepOneMore(rows: seq<Row>, k: nat)
    requires k < |rows| && forall i | 0 <= i < |rows| :: rows[i].state == Submitted
    ensures SweepRows(rows[..k + 1]) == SweepRows(rows[..k]) + SweepRow(rows[k])
    decreases |rows|
  {
    if k == 0 {
      assert rows[..1][1..] == [] && rows[..0] == [];
    } else {
      assert rows[..k + 1][1..] == rows[1..][..k] && rows[..k][1..] == rows[1..][..k - 1];
      SweepOneMore(rows[1..], k - 1);
    }
  }

  lemma OnlyPaymentsTouchMemory(cfg: Config, d: Durable, memory: BankMemory, op: Op)
    ensures !op.ConfirmOp? ==> EffectOf(cfg, d, memory, op).memory == memory
  {
  }

  lemma ConsentInTwo(r: Row, ctx: Context, token: Id, at: Instant)
    requires r.state == AwaitingConfirmation
    ensures ConsentScript(r, ctx, token, at)
        == ConsentPart(r, ctx, token, at) + SubmitPart(Moved(Consented(r, ctx, at), Confirm))
  {
  }

  class ControlPlane {
    const bank: Pg.PgBank
    const store: MemoryStore
    const secret: string

    constructor (bank: Pg.PgBank, store: MemoryStore, secret: string)
      ensures this.bank == bank && this.store == store && this.secret == secret
    {
      this.bank := bank;
      this.store := store;
      this.secret := secret;
    }

    function Cfg(): Config {
      Config(bank.contacts, bank.openingAccounts, bank.openingPaidBefore, secret)
    }

    ghost function Dur(): Durable
      reads store, store.intents.Values, bank.book
    {
      Durable(store.order, store.Rows(), store.events, bank.book.rows)
    }

    /** The store, the ledger and the book stand at `d`: `Dur() == d`, field by field. */
    ghost predicate Stands(d: Durable)
      reads store, store.intents.Values, bank.book
      ensures Stands(d) <==> Dur() == d
    {
      && store.order == d.order && store.events == d.ledger && bank.book.rows == d.book
      && store.Rows() == d.rows
    }

    /** A copying store would stand at `base`; this one already shows the intent as the
        plane holds it now. */
    ghost predicate Shows(base: Durable, intent: Intent)
      reads store, store.intents.Values, bank.book
    {
      && store.Valid() && store.Holds(intent) && intent.id in base.rows
      && store.order == base.order && store.events == base.ledger && bank.book.rows == base.book
      && store.Rows() == base.rows[intent.id := intent.Row()]
    }

    /** Nothing is unsaved: both stores stand at `d`. */
    ghost predicate Saved(d: Durable, intent: Intent)
      reads store, store.intents.Values, bank.book
    {
      Stands(d) && Shows(d, intent)
    }

    // ---------------------------------------------------------------- save, note, move

    method Save(ghost base: Durable, intent: Intent)
      requires Shows(base, intent)
      modifies store`intents, store`order
      ensures store.intents == old(store.intents)
      ensures Saved(Apply(base, Put(intent.Row())), intent)
    {
      LastWins(base.rows, intent.id, intent.Row(), intent.Row());
      store.Put(intent);
    }

    method Note(ghost base: Durable, intent: Intent, entry: Entry)
      requires Shows(base, intent)
      modifies store`events
      ensures Shows(Apply(base, Append(intent.id, entry)), intent)
      ensures old(Stands(base)) ==> Stands(Apply(base, Append(intent.id, entry)))
    {
      store.Append(intent.id, entry);
    }

    method Move(ghost base: Durable, intent: Intent, hop: Hop, token: Option<Id>, digest: Option<Digest>)
      returns (moved: bool)
      requires Shows(base, intent)
      requires token == (if hop == AwaitConfirmation then intent.token else None)
      requires digest == (if hop == AwaitConfirmation then intent.digest else None)
      modifies store, intent`state
      ensures store.intents == old(store.intents)
      ensures moved <==> CanMove(old(intent.Row()), hop)
      ensures moved ==> intent.Row() == Moved(old(intent.Row()), hop)
      ensures moved ==> Saved(ApplyAll(base, P.Move(old(intent.Row()), hop)), intent)
      ensures !moved ==> intent.Row() == old(intent.Row())
      ensures !moved ==> Shows(Apply(base, Append(intent.id, TransitionRefused(intent.state, hop))), intent)
    {
      ghost var r := intent.Row();
      moved := TakeEdge(intent, hop, token, digest, store);
      store.ShowsAtOnce(intent);
      LastWins(base.rows, intent.id, r, intent.Row());
      if moved {
        ghost var ws := P.Move(r, hop);
        ApplyTwo(base, ws[0], ws[1]);
        Save(Apply(base, ws[0]), intent);
      }
    }

    /** The token, its issue time and the digest are set on the live intent first; the
        hop saves them. */
    method Issue(ghost base: Durable, intent: Intent, token: Id, at: Instant)
      requires Shows(base, intent) && intent.state == Validated
      modifies store, intent
      ensures store.intents == old(store.intents)
      ensures intent.Row() == Moved(Issued(Cfg(), old(intent.Row()), token, at), AwaitConfirmation)
      ensures Saved(ApplyAll(base, P.Move(Issued(Cfg(), old(intent.Row()), token, at), AwaitConfirmation)), intent)
    {
      intent.token := Some(token);
      intent.issuedAt := Some(at);
      intent.digest := Some(ActionDigest(intent.action, secret));
      store.ShowsAtOnce(intent);
      var moved := Move(base, intent, AwaitConfirmation, intent.token, intent.digest);
    }

    /** A hop, and one more save for a reason that is not modelled. */
    method MoveAndSave(ghost base: Durable, intent: Intent, hop: Hop)
      requires Shows(base, intent) && CanMove(intent.Row(), hop) && hop != AwaitConfirmation
      modifies store, intent`state
      ensures store.intents == old(store.intents)
      ensures intent.Row() == Moved(old(intent.Row()), hop)
      ensures Saved(ApplyAll(base, P.Move(old(intent.Row()), hop) + [Put(intent.Row())]), intent)
    {
      ghost var ws := P.Move(intent.Row(), hop);
      var moved := Move(base, intent, hop, None, None);
      ApplyAllConcat(base, ws, [Put(intent.Row())]);
      ApplyOne(ApplyAll(base, ws), Put(intent.Row()));
      Save(ApplyAll(base, ws), intent);
    }

    method ApplyVerdict(ghost base: Durable, intent: Intent, verdict: Verdict, token: Id, at: Instant)
      returns (reply: Reply)
      requires Shows(base, intent) && intent.state == Validated
      modifies store, intent
      ensures store.intents == old(store.intents)
      ensures Saved(ApplyAll(base, P.ApplyVerdict(Cfg(), old(intent.Row()), verdict, token, at).0), intent)
      ensures reply == P.ApplyVerdict(Cfg(), old(intent.Row()), verdict, token, at).1
    {
      hide SummaryOf;
      if verdict.decision == RequireStepUpAuth {
        var moved := Move(base, intent, RequireStepUp, None, None);
        reply := Outcome(Decided(RequireStepUpAuth), Some(intent.id), None, SummaryOf(Cfg(), intent.Row()));
      } else if verdict.decision == RequireConfirmation {
        Issue(base, intent, token, at);
        reply := Outcome(Decided(RequireConfirmation), Some(intent.id), intent.token, SummaryOf(Cfg(), intent.Row()));
      } else {
        MoveAndSave(base, intent, Reject);
        reply := StatusOf(Cfg(), intent.Row(), true);
      }
    }

    method Decide(ghost base: Durable, intent: Intent, token: Id, t1: Instant, t2: Instant) returns (reply: Reply)
      requires Shows(base, intent) && intent.state == Validated
      modifies store, intent
      ensures store.intents == old(store.intents)
      ensures Saved(ApplyAll(base, P.Decide(Cfg(), old(intent.Row()), bank.Memory(), token, t1, t2).0), intent)
      ensures reply == P.Decide(Cfg(), old(intent.Row()), bank.Memory(), token, t1, t2).1
    {
      hide P.ApplyVerdict, Evaluate, RiskOf;
      ghost var head := DecideHead(intent.Row(), bank.Memory(), t1);
      ApplyTwo(base, head[0], head[1]);
      var risk := AssessRisk(intent.action, intent.context, bank.paidBefore);
      Note(base, intent, RiskScored(risk));
      var verdict := Evaluate(intent.action, intent.context, risk, t1);
      Note(Apply(base, head[0]), intent, PolicyVerdict(verdict));
      ApplyAllConcat(base, head, P.ApplyVerdict(Cfg(), intent.Row(), verdict, token, t2).0);
      reply := ApplyVerdict(ApplyAll(base, head), intent, verdict, token, t2);
    }

    // ---------------------------------------------------------------- propose and step-up

    /** What the customer asked, what the agent understood, and who it may mean. */
    method Hear(ghost base: Durable, ctx: Context, proposed: ProposedPix, text: string, id: Id)
      returns (matches: seq<Contact>)
      requires Stands(base)
      modifies store`events
      ensures matches == FindContacts(bank.contacts, proposed.recipient)
      ensures Stands(ApplyAll(base, ProposeHead(ctx, proposed, text, id, matches)))
    {
      store.Append(id, Request(ctx.customer, ctx.session, ctx.channel, text));
      store.Append(id, Interpreted(proposed));
      matches := FindContacts(bank.contacts, proposed.recipient);
      store.Append(id, Resolution(proposed.recipient, Ids(matches)));
      ghost var head := ProposeHead(ctx, proposed, text, id, matches);
      ApplyThree(base, head[0], head[1], head[2]);
    }

    method Propose(ctx: Context, proposed: ProposedPix, text: string, id: Id, token: Id, t1: Instant, t2: Instant)
      returns (reply: Reply)
      requires store.Valid()
      modifies store
      ensures store.Valid() && fresh(store.intents.Values - old(store.intents.Values))
      ensures Stands(ApplyAll(old(Dur()),
                              P.Propose(Cfg(), bank.Memory(), ctx, proposed, text, id, token, t1, t2).script))
      ensures reply == P.Propose(Cfg(), bank.Memory(), ctx, proposed, text, id, token, t1, t2).reply
    {
      hide ProposeBody;
      ghost var d := Dur();
      var matches := Hear(d, ctx, proposed, text, id);
      ghost var head := ProposeHead(ctx, proposed, text, id, matches);
      if |matches| != 1 {
        return Outcome(Decided(RequireMoreInfo), Some(id), None, Candidates(Ids(matches)));
      }
      var intent := new Intent(id, CreatePix(DEFAULT_ACCOUNT, matches[0].id, proposed.amount), ctx);
      ApplyAllConcat(d, head, ProposeBody(Cfg(), intent.Row(), bank.Memory(), token, t1, t2).0);
      reply := Enter(ApplyAll(d, head), intent, token, t1, t2);
    }

    method Open(ghost base: Durable, intent: Intent)
      requires Stands(base) && store.Valid()
      modifies store
      ensures store.intents == old(store.intents)[intent.id := intent]
      ensures Shows(ApplyAll(base, [Put(intent.Row()), Append(intent.id, CanonicalAction(intent.action))]), intent)
    {
      var row := intent.Row();
      ApplyTwo(base, Put(row), Append(row.id, CanonicalAction(row.action)));
      store.Put(intent);
      LastWins(base.rows, row.id, row, row);
      Note(Apply(base, Put(row)), intent, CanonicalAction(row.action));
    }

    /** The new intent is saved, checked against its preconditions, and decided on. */
    method Enter(ghost base: Durable, intent: Intent, token: Id, t1: Instant, t2: Instant) returns (reply: Reply)
      requires Stands(base)
      requires store.Valid() && intent !in store.intents.Values && intent.state == Created
      modifies store, intent
      ensures store.intents == old(store.intents)[intent.id := intent]
      ensures Saved(ApplyAll(base, ProposeBody(Cfg(), old(intent.Row()), bank.Memory(), token, t1, t2).0), intent)
      ensures reply == ProposeBody(Cfg(), old(intent.Row()), bank.Memory(), token, t1, t2).1
    {
      hide P.Decide, MissingPreconditions;
      ghost var row := intent.Row();
      ghost var created := [Put(row), Append(row.id, CanonicalAction(row.action))];
      Open(base, intent);
      ghost var d := ApplyAll(base, created);
      var missing := MissingPreconditions(Cfg(), bank.Memory(), intent.action);
      var moved;
      if missing != [] {
        moved := Move(d, intent, Reject, None, None);
        ApplyAllConcat(base, created, P.Move(row, Reject));
        return Outcome(Decided(Deny), Some(intent.id), None, Missing(missing));
      }
      moved := Move(d, intent, Validate, None, None);
      InThree(base, created, P.Move(row, Validate), P.Decide(Cfg(), intent.Row(), bank.Memory(), token, t1, t2).0);
      reply := Decide(ApplyAll(d, P.Move(row, Validate)), intent, token, t1, t2);
    }

    method StepUp(ctx: Context, id: Id, token: Id, t1: Instant, t2: Instant) returns (reply: Reply)
      requires store.Valid()
      modifies store, store.intents.Values
      ensures store.Valid() && store.intents == old(store.intents)
      ensures Stands(ApplyAll(old(Dur()), StepUpPix(Cfg(), old(Dur()), bank.Memory(), ctx, id, token, t1, t2).script))
      ensures reply == StepUpPix(Cfg(), old(Dur()), bank.Memory(), ctx, id, token, t1, t2).reply
    {
      hide StepUpBody;
      var found := store.Get(id);
      if found.None? || found.value.context.customer != ctx.customer {
        return UNKNOWN_REFERENCE;
      }
      var intent := found.value;
      if intent.state != AwaitingStepUp {
        return StatusOf(Cfg(), intent.Row(), true);
      }
      reply := Strengthen(Dur(), intent, token, t1, t2);
    }

    /** Strong assurance, for this intent only. */
    method RaiseAssurance(ghost base: Durable, intent: Intent)
      requires Saved(base, intent)
      modifies store, intent`context
      ensures store.intents == old(store.intents)
      ensures intent.Row() == Strengthened(old(intent.Row()))
      ensures Shows(ApplyAll(base, StepUpHead(old(intent.Row()))), intent)
    {
      ghost var head := StepUpHead(intent.Row());
      ApplyTwo(base, head[0], head[1]);
      intent.context := intent.context.(assurance := Strong);
      store.ShowsAtOnce(intent);
      Save(base, intent);
      Note(Apply(base, head[0]), intent, SteppedUp);
    }

    /** Assurance is raised and policy asked again. */
    method Strengthen(ghost base: Durable, intent: Intent, token: Id, t1: Instant, t2: Instant) returns (reply: Reply)
      requires Saved(base, intent) && intent.state == AwaitingStepUp
      modifies store, intent
      ensures store.intents == old(store.intents)
      ensures Saved(ApplyAll(base, StepUpBody(Cfg(), old(intent.Row()), bank.Memory(), token, t1, t2).0), intent)
      ensures reply == StepUpBody(Cfg(), old(intent.Row()), bank.Memory(), token, t1, t2).1
    {
      hide P.Decide;
      ghost var head, strong := StepUpHead(intent.Row()), Strengthened(intent.Row());
      RaiseAssurance(base, intent);
      ghost var d := ApplyAll(base, head);
      var moved := Move(d, intent, Hop.StepUp, None, None);
      InThree(base, head, P.Move(strong, Hop.StepUp), P.Decide(Cfg(), intent.Row(), bank.Memory(), token, t1, t2).0);
      reply := Decide(ApplyAll(d, P.Move(strong, Hop.StepUp)), intent, token, t1, t2);
    }

    // ---------------------------------------------------------------- confirm and execute

    /** Consent is recorded, then authorization. */
    method Consent(ghost base: Durable, intent: Intent, ctx: Context, token: Id, at: Instant)
      requires Saved(base, intent) && intent.state == AwaitingConfirmation
      modifies store, intent
      ensures store.intents == old(store.intents)
      ensures intent.Row() == Moved(Consented(old(intent.Row()), ctx, at), Hop.Confirm)
      ensures Saved(ApplyAll(base, ConsentPart(old(intent.Row()), ctx, token, at)), intent)
    {
      ghost var r := intent.Row();
      ghost var head, consented := ConsentHead(r, ctx, token, at), Consented(r, ctx, at);
      assert CanMove(consented, Hop.Confirm);
      hide Target, P.Move;
      RecordConsent(base, intent, ctx, token, at);
      ghost var d := ApplyAll(base, head);
      var moved := Move(d, intent, Hop.Confirm, None, None);
      d := ApplyAll(d, P.Move(consented, Hop.Confirm));
      ghost var granted := Append(intent.id, Authorization(intent.context.assurance));
      InThree(base, head, P.Move(consented, Hop.Confirm), [granted]);
      ApplyOne(d, granted);
      Note(d, intent, Authorization(intent.context.assurance));
    }

    method Agree(ghost base: Durable, intent: Intent, ctx: Context, at: Instant)
      requires Shows(base, intent)
      modifies intent`confirmedAt, intent`confirmedBy
      ensures intent.Row() == Consented(old(intent.Row()), ctx, at)
      ensures Shows(base, intent)
    {
      intent.confirmedAt := Some(at);
      intent.confirmedBy := Some(ctx.customer);
      store.ShowsAtOnce(intent);
    }

    method RecordConsent(ghost base: Durable, intent: Intent, ctx: Context, token: Id, at: Instant)
      requires Saved(base, intent)
      modifies store, intent
      ensures store.intents == old(store.intents)
      ensures intent.Row() == Consented(old(intent.Row()), ctx, at)
      ensures Saved(ApplyAll(base, ConsentHead(old(intent.Row()), ctx, token, at)), intent)
    {
      ghost var head := ConsentHead(intent.Row(), ctx, token, at);
      ApplyTwo(base, head[0], head[1]);
      Agree(base, intent, ctx, at);
      Save(base, intent);
      Note(Apply(base, head[0]), intent,
           Confirmation(token, ctx.customer, ctx.session, ctx.channel, at, intent.action));
    }

    method Submit(ghost base: Durable, intent: Intent)
      requires Saved(base, intent) && intent.state == Authorized
      modifies store, intent`state
      ensures store.intents == old(store.intents)
      ensures intent.Row() == Moved(old(intent.Row()), Hop.Submit)
      ensures Saved(ApplyAll(base, SubmitPart(old(intent.Row()))), intent)
    {
      ghost var hop, request := P.Move(intent.Row(), Hop.Submit), Append(intent.id, ExecutionRequest(intent.id));
      var moved := Move(base, intent, Hop.Submit, None, None);
      ApplyAllConcat(base, hop, [request]);
      ApplyOne(ApplyAll(base, hop), request);
      Note(ApplyAll(base, hop), intent, ExecutionRequest(intent.id));
    }

    /** The bank call. No answer at all, not even a timeout, when the process dies in it. */
    method CallBank(ghost base: Durable, intent: Intent, payment: Id, crash: Option<CrashAt>)
      returns (answer: Option<Answer>)
      requires Saved(base, intent)
      modifies bank, bank.book
      ensures var call := BankCall(Cfg(), base, old(bank.Memory()), intent.Row(), payment);
        && answer == (if Dies(crash, call.answer) then None else Some(call.answer))
        && bank.Memory() == (if crash == Some(BeforePay) then old(bank.Memory()) else call.memory)
        && Saved(if crash == Some(BeforePay) then base else ApplyAll(base, FileScript(intent.id, call.filed)), intent)
    {
      ghost var call := BankCall(Cfg(), base, bank.Memory(), intent.Row(), payment);
      if crash == Some(BeforePay) {
        return None;
      }
      if call.filed.Some? {
        ApplyOne(base, File(intent.id, call.filed.value));
      }
      var given := bank.CreatePix(intent.id, intent.action, payment);
      if crash == Some(AfterPay) && given.Paid? {
        return None;
      }
      return Some(given);
    }

    method TakeReceipt(ghost base: Durable, intent: Intent, receipt: Option<Receipt>)
      requires Shows(base, intent)
      modifies intent`receipt
      ensures intent.Row() == old(intent.Row()).(receipt := receipt)
      ensures Shows(base, intent)
    {
      intent.receipt := receipt;
      store.ShowsAtOnce(intent);
    }

    /** What the bank answered, or that it did not. */
    method Settle(ghost base: Durable, intent: Intent, answer: Answer)
      requires Saved(base, intent) && intent.state == Submitted
      modifies store, intent
      ensures store.intents == old(store.intents)
      ensures intent.Row() == SettledRow(old(intent.Row()), answer)
      ensures Saved(ApplyAll(base, SettleScript(old(intent.Row()), answer)), intent)
    {
      hide SettleScript, SettledRow, Target, P.Move;
      SettleInTwo(base, intent.Row(), answer);
      if answer.Paid? {
        TakeReceipt(base, intent, Some(answer.receipt));
      }
      Note(base, intent, BackendResponse(answer));
      var moved := Move(Apply(base, Append(intent.id, BackendResponse(answer))), intent, SettleHop(answer), None, None);
    }

    /** The execution gateway: submit, call the bank, settle. */
    method Execute(ghost base: Durable, intent: Intent, payment: Id, crash: Option<CrashAt>) returns (answered: bool)
      requires Saved(base, intent) && intent.state == Authorized
      modifies store, bank, bank.book, intent
      ensures store.Valid() && store.intents == old(store.intents)
      ensures var submitted := Moved(old(intent.Row()), Hop.Submit);
        var before := ApplyAll(base, SubmitPart(old(intent.Row())));
        var call := BankCall(Cfg(), before, old(bank.Memory()), submitted, payment);
        var paid := ApplyAll(before, FileScript(intent.id, call.filed));
        && answered == !Dies(crash, call.answer)
        && (answered ==> Saved(ApplyAll(paid, SettleScript(submitted, call.answer)), intent))
        && (answered ==> intent.Row() == SettledRow(submitted, call.answer))
        && (answered ==> bank.Memory() == call.memory)
        && (!answered ==> Stands(if crash == Some(BeforePay) then before else paid))
    {
      hide SettleScript, SettledRow, PixOn, FileScript, BankCall;
      ghost var r := intent.Row();
      Submit(base, intent);
      ghost var before := ApplyAll(base, SubmitPart(r));
      ghost var call := BankCall(Cfg(), before, bank.Memory(), intent.Row(), payment);
      var answer := CallBank(before, intent, payment, crash);
      if answer.None? {
        return false;
      }
      Settle(ApplyAll(before, FileScript(intent.id, call.filed)), intent, answer.value);
      return true;
    }

    method Confirm(ctx: Context, token: Id, t1: Instant, t2: Instant, payment: Id, crash: Option<CrashAt>)
      returns (reply: Option<Reply>)
      requires store.Valid()
      modifies store, bank, bank.book, store.intents.Values
      ensures store.Valid() && store.intents == old(store.intents)
      ensures var effect := ConfirmPix(Cfg(), old(Dur()), old(bank.Memory()), ctx, token, t1, t2, payment);
        reply.Some? ==>
          && Stands(ApplyAll(old(Dur()), effect.script))
          && bank.Memory() == effect.memory && reply.value == effect.reply
      ensures reply.None? <==>
        && Reaches(Cfg(), old(Dur()), ctx, token, t1)
        && Dies(crash, PaymentCall(Cfg(), old(Dur()), old(bank.Memory()), ctx, token, t2, payment).answer)
      ensures reply.None? ==>
        var call := PaymentCall(Cfg(), old(Dur()), old(bank.Memory()), ctx, token, t2, payment);
        Stands(ApplyAll(old(Dur()), Remains(crash, ByToken(old(Dur()), token).value, ctx, token, t2, call)))
    {
      hide ConfirmRow, BankCall, Remains, SubmittedRow, Expired, DigestMatches;
      var found := store.ByConfirmation(token);
      if found.None? || PrincipalOf(found.value.context) != PrincipalOf(ctx) {
        return Some(UNKNOWN_REFERENCE);
      }
      reply := ConfirmFound(Dur(), found.value, ctx, token, t1, t2, payment, crash);
    }

    /** A confirmation the process survives. */
    method ConfirmAnswered(ctx: Context, token: Id, t1: Instant, t2: Instant, payment: Id) returns (reply: Reply)
      requires store.Valid()
      modifies store, bank, bank.book, store.intents.Values
      ensures store.Valid() && store.intents == old(store.intents)
      ensures Stands(ApplyAll(old(Dur()),
                              ConfirmPix(Cfg(), old(Dur()), old(bank.Memory()), ctx, token, t1, t2, payment).script))
      ensures bank.Memory() == ConfirmPix(Cfg(), old(Dur()), old(bank.Memory()), ctx, token, t1, t2, payment).memory
      ensures reply == ConfirmPix(Cfg(), old(Dur()), old(bank.Memory()), ctx, token, t1, t2, payment).reply
    {
      hide ConfirmPix, ApplyAll, Reaches, BankCall, Remains;
      var answered := Confirm(ctx, token, t1, t2, payment, None);
      reply := answered.value;
    }

    method ConfirmFound(ghost base: Durable, intent: Intent, ctx: Context, token: Id, t1: Instant, t2: Instant,
                        payment: Id, crash: Option<CrashAt>) returns (reply: Option<Reply>)
      requires Saved(base, intent)
      modifies store, bank, bank.book, intent
      ensures store.Valid() && store.intents == old(store.intents)
      ensures var r := old(intent.Row());
        var effect := ConfirmRow(Cfg(), base, old(bank.Memory()), ctx, r, token, t1, t2, payment);
        reply.Some? ==>
          && Stands(ApplyAll(base, effect.script))
          && bank.Memory() == effect.memory && reply.value == effect.reply
      ensures reply.None? <==>
        && Willing(Cfg(), old(intent.Row()), t1)
        && Dies(crash,
                BankCall(Cfg(), base, old(bank.Memory()), SubmittedRow(old(intent.Row()), ctx, t2), payment).answer)
      ensures reply.None? ==>
        var call := BankCall(Cfg(), base, old(bank.Memory()), SubmittedRow(old(intent.Row()), ctx, t2), payment);
        Stands(ApplyAll(base, Remains(crash, old(intent.Row()), ctx, token, t2, call)))
    {
      hide StatusOf, BankCall, ConsentScript, ExecuteScript, Remains, P.Move, PixOn;
      if intent.state in {Completed, Submitted, Pending, Unknown} {
        Note(base, intent, DuplicateConfirmation(intent.state));
        ApplyOne(base, Append(intent.id, DuplicateConfirmation(intent.state)));
        return Some(StatusOf(Cfg(), intent.Row(), false));
      }
      if intent.state != AwaitingConfirmation {
        return Some(StatusOf(Cfg(), intent.Row(), true));
      }
      if intent.issuedAt.Some? && t1 - intent.issuedAt.value > CONFIRMATION_TTL {
        ghost var r, expired := intent.Row(), Append(intent.id, ConfirmationExpired(intent.issuedAt.value));
        Note(base, intent, ConfirmationExpired(intent.issuedAt.value));
        MoveAndSave(Apply(base, expired), intent, Hop.Cancel);
        ApplyOne(base, expired);
        InThree(base, [expired], P.Move(r, Hop.Cancel), [Put(intent.Row())]);
        ApplyAllConcat(Apply(base, expired), P.Move(r, Hop.Cancel), [Put(intent.Row())]);
        return Some(StatusOf(Cfg(), intent.Row(), false));
      }
      var current := ActionDigest(intent.action, secret);
      if intent.digest != Some(current) {
        Note(base, intent, DigestMismatch(intent.digest, current));
        ApplyOne(base, Append(intent.id, DigestMismatch(intent.digest, current)));
        return Some(StatusOf(Cfg(), intent.Row(), true));
      }
      var answered := ConsentAndExecute(base, intent, ctx, token, t2, payment, crash);
      if !answered {
        return None;
      }
      return Some(StatusOf(Cfg(), intent.Row(), false));
    }

    method ConsentAndExecute(ghost base: Durable, intent: Intent, ctx: Context, token: Id, at: Instant, payment: Id,
                             crash: Option<CrashAt>) returns (answered: bool)
      requires Saved(base, intent) && intent.state == AwaitingConfirmation
      modifies store, bank, bank.book, intent
      ensures store.Valid() && store.intents == old(store.intents)
      ensures var r := old(intent.Row());
        var submitted := SubmittedRow(r, ctx, at);
        var call := BankCall(Cfg(), base, old(bank.Memory()), submitted, payment);
        && answered == !Dies(crash, call.answer)
        && (answered ==> Stands(ApplyAll(base, ConsentScript(r, ctx, token, at) + ExecuteScript(submitted, call))))
        && (answered ==> intent.Row() == SettledRow(submitted, call.answer))
        && (answered ==> bank.Memory() == call.memory)
        && (!answered ==> Stands(ApplyAll(base, Remains(crash, r, ctx, token, at, call))))
    {
      ghost var r, m := intent.Row(), bank.Memory();
      assert Target(AwaitingConfirmation, Hop.Confirm) == Some(Authorized);
      hide SettleScript, SettledRow, PixOn, FileScript, ConsentPart, SubmitPart, ConsentScript, ExecuteScript;
      hide Remains, BankCall, Target, SubmittedRow;
      Consent(base, intent, ctx, token, at);
      ghost var agreed := ApplyAll(base, ConsentPart(r, ctx, token, at));
      ScriptsAddUp(Cfg(), base, m, r, ctx, token, at, payment, crash);
      answered := Execute(agreed, intent, payment, crash);
    }

    // ---------------------------------------------------------------- cancel, reconcile, sweep

    method Cancel(ctx: Context, token: Id) returns (reply: Reply)
      requires store.Valid()
      modifies store, store.intents.Values
      ensures store.Valid() && store.intents == old(store.intents)
      ensures Stands(ApplyAll(old(Dur()), CancelPix(Cfg(), old(Dur()), bank.Memory(), ctx, token).script))
      ensures reply == CancelPix(Cfg(), old(Dur()), bank.Memory(), ctx, token).reply
    {
      hide StatusOf;
      var found := store.ByConfirmation(token);
      if found.None? || PrincipalOf(found.value.context) != PrincipalOf(ctx) {
        return UNKNOWN_REFERENCE;
      }
      reply := CancelFound(Dur(), found.value);
    }

    method CancelFound(ghost base: Durable, intent: Intent) returns (reply: Reply)
      requires Saved(base, intent)
      modifies store, intent
      ensures store.Valid() && store.intents == old(store.intents)
      ensures var r := old(intent.Row());
        if CanMove(r, Hop.Cancel) then
          && Stands(ApplyAll(base, P.Move(r, Hop.Cancel) + [Put(Moved(r, Hop.Cancel))]))
          && reply == StatusOf(Cfg(), Moved(r, Hop.Cancel), false)
        else
          && Stands(ApplyAll(base, [Append(r.id, TransitionRefused(r.state, Hop.Cancel))]))
          && reply == StatusOf(Cfg(), r, true)
    {
      hide StatusOf, Target, P.Move;
      ghost var r := intent.Row();
      var moved := Move(base, intent, Hop.Cancel, None, None);
      if !moved {
        ApplyOne(base, Append(r.id, TransitionRefused(r.state, Hop.Cancel)));
        return StatusOf(Cfg(), intent.Row(), true);
      }
      ApplyAllConcat(base, P.Move(r, Hop.Cancel), [Put(intent.Row())]);
      ApplyOne(ApplyAll(base, P.Move(r, Hop.Cancel)), Put(intent.Row()));
      Save(ApplyAll(base, P.Move(r, Hop.Cancel)), intent);
      return StatusOf(Cfg(), intent.Row(), false);
    }

    /** The bank is asked what it did; nothing is paid. */
    method Reconcile(ctx: Context, id: Id) returns (reply: Reply)
      requires store.Valid()
      modifies store, store.intents.Values
      ensures store.Valid() && store.intents == old(store.intents)
      ensures Stands(ApplyAll(old(Dur()), ReconcilePix(Cfg(), old(Dur()), bank.Memory(), ctx, id).script))
      ensures reply == ReconcilePix(Cfg(), old(Dur()), bank.Memory(), ctx, id).reply
    {
      hide StatusOf, ReconcileScript, ReconciledRow;
      var found := store.Get(id);
      if found.None? || found.value.context.customer != ctx.customer {
        return UNKNOWN_REFERENCE;
      }
      var intent := found.value;
      if intent.state != Unknown {
        return StatusOf(Cfg(), intent.Row(), false);
      }
      AskBank(Dur(), intent);
      reply := StatusOf(Cfg(), intent.Row(), false);
    }

    method AskBank(ghost base: Durable, intent: Intent)
      requires Saved(base, intent) && intent.state == Unknown
      modifies store, intent
      ensures store.intents == old(store.intents)
      ensures var r, receipt := old(intent.Row()), Lookup(base.book, intent.id);
        intent.Row() == ReconciledRow(r, receipt) && Saved(ApplyAll(base, ReconcileScript(r, receipt)), intent)
    {
      hide ReconcileScript, P.Move, Target, ReconciledRow;
      var receipt := bank.Payment(intent.id);
      ReconcileInTwo(base, intent.Row(), receipt);
      ghost var asked := Apply(base, Append(intent.id, Reconciliation(receipt.Some?)));
      Note(base, intent, Reconciliation(receipt.Some?));
      if receipt.None? {
        MoveAndSave(asked, intent, Fail);
      } else {
        TakeReceipt(asked, intent, receipt);
        var moved := Move(asked, intent, Complete, None, None);
      }
    }

    /** On boot: whatever the last process left submitted becomes unknown. */
    method Sweep() returns (ids: seq<Id>)
      requires store.Valid()
      modifies store, store.intents.Values
      ensures store.Valid() && store.intents == old(store.intents)
      ensures Stands(ApplyAll(old(Dur()), P.Sweep(old(Dur()), bank.Memory()).script))
      ensures Swept(ids) == P.Sweep(old(Dur()), bank.Memory()).reply
    {
      hide SweepRow, SweepRows, SweepScript, InState, ApplyAll, NoRepeats;
      var stranded := store.Unsettled(Submitted);
      ghost var rows := InState(store.order, store.Rows(), Submitted);
      SweepIsRowByRow(store.order, store.Rows());
      StrandedDiffer(stranded, rows);
      ids := StrandAll(Dur(), stranded, rows);
      assert ids == RowIds(rows);
    }

    lemma StrandedDiffer(stranded: seq<Intent>, rows: seq<Row>)
      requires store.Valid() && rows == InState(store.order, store.Rows(), Submitted) && |stranded| == |rows|
      requires forall k | 0 <= k < |rows| :: stranded[k].Row() == rows[k]
      ensures forall j, k | 0 <= j < k < |rows| :: stranded[j].id != stranded[k].id
    {
      InStateMeans(store.order, store.Rows(), Submitted);
      forall j, k | 0 <= j < k < |rows|
        ensures stranded[j].id != stranded[k].id
      {
        assert RowIds(rows)[j] != RowIds(rows)[k];
        assert stranded[j].Row().id == rows[j].id && stranded[k].Row().id == rows[k].id;
      }
    }

    method StrandAll(ghost base: Durable, stranded: seq<Intent>, ghost rows: seq<Row>) returns (ids: seq<Id>)
      requires Stands(base) && store.Valid() && |rows| == |stranded|
      requires forall k | 0 <= k < |rows| :: rows[k].state == Submitted
      requires forall k | 0 <= k < |rows| :: store.Holds(stranded[k]) && stranded[k].Row() == rows[k]
      requires forall j, k | 0 <= j < k < |rows| :: stranded[j].id != stranded[k].id
      modifies store, stranded
      ensures store.Valid() && store.intents == old(store.intents)
      ensures |ids| == |rows| && forall k | 0 <= k < |rows| :: ids[k] == rows[k].id
      ensures Stands(ApplyAll(base, SweepRows(rows)))
    {
      hide SweepRow, SweepRows, ApplyAll, NoRepeats;
      SweepNothing(base);
      assert rows[..0] == [];
      ids := [];
      var i := 0;
      while i < |stranded|
        invariant 0 <= i <= |stranded|
        invariant store.Valid() && store.intents == old(store.intents)
        invariant |ids| == i && forall k | 0 <= k < i :: ids[k] == rows[k].id
        invariant forall k | i <= k < |stranded| :: stranded[k].Row() == rows[k]
        invariant Stands(ApplyAll(base, SweepRows(rows[..i])))
      {
        StrandNext(base, stranded, rows, i);
        ids := ids + [stranded[i].id];
        i := i + 1;
      }
      assert rows[..i] == rows;
    }

    method StrandNext(ghost base: Durable, stranded: seq<Intent>, ghost rows: seq<Row>, i: nat)
      requires |rows| == |stranded| && forall k | 0 <= k < |rows| :: rows[k].state == Submitted
      requires i < |rows| && store.Valid() && store.Holds(stranded[i]) && stranded[i].Row() == rows[i]
      requires Stands(ApplyAll(base, SweepRows(rows[..i])))
      modifies store, stranded[i]
      ensures store.Valid() && store.intents == old(store.intents)
      ensures Stands(ApplyAll(base, SweepRows(rows[..i + 1])))
    {
      hide SweepRow, SweepRows, ApplyAll, NoRepeats;
      SweepOneMore(rows, i);
      ApplyAllConcat(base, SweepRows(rows[..i]), SweepRow(rows[i]));
      Strand(ApplyAll(base, SweepRows(rows[..i])), stranded[i]);
    }

    method Strand(ghost base: Durable, intent: Intent)
      requires Stands(base) && store.Valid() && store.Holds(intent) && intent.state == Submitted
      modifies store, intent
      ensures store.Valid() && store.intents == old(store.intents)
      ensures Stands(ApplyAll(base, SweepRow(old(intent.Row()))))
    {
      hide P.Move;
      ghost var r, swept := intent.Row(), Append(intent.id, RestartSweep);
      ApplyOne(base, swept);
      InThree(base, [swept], P.Move(r, Timeout), [Put(Moved(r, Timeout))]);
      ApplyAllConcat(Apply(base, swept), P.Move(r, Timeout), [Put(Moved(r, Timeout))]);
      Note(base, intent, RestartSweep);
      MoveAndSave(Apply(base, swept), intent, Timeout);
    }

    // ---------------------------------------------------------------- reads

    method Query(ctx: Context, account: string, id: Id) returns (reply: Reply)
      modifies store`events
      ensures Stands(ApplyAll(old(Dur()), P.Query(bank.Memory(), ctx, account, id).script))
      ensures reply == P.Query(bank.Memory(), ctx, account, id).reply
    {
      hide Rank, ApplyAll;
      ghost var d, request := Dur(), Append(id, Request(ctx.customer, ctx.session, ctx.channel, account));
      store.Append(id, Request(ctx.customer, ctx.session, ctx.channel, account));
      ApplyOne(d, request);
      ApplyTwo(d, request, Append(id, ReadResult(false)));
      ApplyTwo(d, request, Append(id, ReadResult(true)));
      if Rank(ctx.assurance) < Rank(READ_CAPABILITY.requiredAssurance) {
        store.Append(id, ReadResult(false));
        assert P.Query(bank.Memory(), ctx, account, id).script == [request, Append(id, ReadResult(false))];
        return Outcome(Decided(Deny), Some(id), None, NoData);
      }
      var balance := bank.Balance(account);
      if balance.None? {
        return Raised;
      }
      store.Append(id, ReadResult(true));
      assert P.Query(bank.Memory(), ctx, account, id).script == [request, Append(id, ReadResult(true))];
      return Outcome(Decided(Allow), Some(id), None, Data.Balance(account, balance.value));
    }

    method Status(ctx: Context, id: Id) returns (reply: Reply)
      requires store.Valid()
      ensures reply == StatusPix(Cfg(), Dur(), bank.Memory(), ctx, id).reply
    {
      var found := store.Get(id);
      if found.None? || PrincipalOf(found.value.context) != PrincipalOf(ctx) {
        return UNKNOWN_REFERENCE;
      }
      return StatusOf(Cfg(), found.value.Row(), false);
    }

    /** The trail, for the conversation that opened it; nothing for anyone else. */
    method Explain(ctx: Context, id: Id) returns (trail: seq<Entry>)
      ensures Events(trail) == P.Explain(Dur(), bank.Memory(), ctx, id).reply
    {
      trail := store.EventsFor(id);
      var owner := PrincipalOfTrail(trail);
      if owner != Some(PrincipalOf(ctx)) {
        return [];
      }
    }

    // ---------------------------------------------------------------- any call, any run of calls

    /** Any one call, answered in full: the durable state, the bank's memory and the reply
        are those of the copying store. */
    method Call(op: Op) returns (reply: Reply)
      requires store.Valid()
      modifies store, bank, bank.book, store.intents.Values
      ensures store.Valid() && fresh(store.intents.Values - old(store.intents.Values))
      ensures Stands(ApplyAll(old(Dur()), EffectOf(Cfg(), old(Dur()), old(bank.Memory()), op).script))
      ensures bank.Memory() == EffectOf(Cfg(), old(Dur()), old(bank.Memory()), op).memory
      ensures reply == EffectOf(Cfg(), old(Dur()), old(bank.Memory()), op).reply
    {
      hide ApplyAll, P.Propose, StepUpPix, ConfirmPix, CancelPix, ReconcilePix, P.Query, StatusPix, P.Explain, P.Sweep;
      OnlyPaymentsTouchMemory(Cfg(), Dur(), bank.Memory(), op);
      match op
      case ProposeOp(ctx, proposed, text, id, token, t1, t2) =>
        reply := Propose(ctx, proposed, text, id, token, t1, t2);
      case ConfirmOp(ctx, token, t1, t2, payment) =>
        reply := ConfirmAnswered(ctx, token, t1, t2, payment);
      case StepUpOp(_, _, _, _, _) => reply := Advance(op);
      case CancelOp(_, _) => reply := Advance(op);
      case ReconcileOp(_, _) => reply := Advance(op);
      case SweepOp => reply := Advance(op);
      case _ => reply := Look(op);
    }

    method Advance(op: Op) returns (reply: Reply)
      requires store.Valid() && (op.StepUpOp? || op.CancelOp? || op.ReconcileOp? || op.SweepOp?)
      modifies store, store.intents.Values
      ensures store.Valid() && store.intents == old(store.intents)
      ensures Stands(ApplyAll(old(Dur()), EffectOf(Cfg(), old(Dur()), bank.Memory(), op).script))
      ensures reply == EffectOf(Cfg(), old(Dur()), bank.Memory(), op).reply
    {
      hide ApplyAll, StatusOf, StepUpBody, ReconcileScript, SweepScript, InState;
      match op
      case StepUpOp(ctx, id, token, t1, t2) => reply := StepUp(ctx, id, token, t1, t2);
      case CancelOp(ctx, token) => reply := Cancel(ctx, token);
      case ReconcileOp(ctx, id) => reply := Reconcile(ctx, id);
      case SweepOp =>
        var ids := Sweep();
        reply := Swept(ids);
    }

    method Look(op: Op) returns (reply: Reply)
      requires store.Valid() && (op.QueryOp? || op.StatusOp? || op.ExplainOp?)
      modifies store`events
      ensures Stands(ApplyAll(old(Dur()), EffectOf(Cfg(), old(Dur()), bank.Memory(), op).script))
      ensures reply == EffectOf(Cfg(), old(Dur()), bank.Memory(), op).reply
    {
      hide P.Query, StatusOf, TrailOwner, OpeningMemory;
      match op
      case QueryOp(ctx, account, id) => reply := Query(ctx, account, id);
      case StatusOp(ctx, id) => reply := Status(ctx, id);
      case ExplainOp(ctx, id) =>
        var trail := Explain(ctx, id);
        reply := Events(trail);
    }

    /** A whole run of calls, from any state. */
    method Serve(ops: seq<Op>) returns (replies: seq<Reply>)
      requires store.Valid()
      modifies store, bank, bank.book, store.intents.Values
      ensures store.Valid()
      ensures var served := ServedAll(Cfg(), old(Dur()), old(bank.Memory()), ops);
        Stands(served.d) && bank.Memory() == served.memory && replies == served.replies
    {
      replies := [];
      var i := 0;
      while i < |ops|
        invariant 0 <= i <= |ops|
        invariant store.Valid() && fresh(store.intents.Values - old(store.intents.Values))
        invariant ServedAll(Cfg(), old(Dur()), old(bank.Memory()), ops[..i]) == Served(Dur(), bank.Memory(), replies)
      {
        hide EffectOf, ApplyAll;
        assert ops[..i + 1][..i] == ops[..i];
        var reply := Call(ops[i]);
        replies := replies + [reply];
        i := i + 1;
      }
      assert ops[..i] == ops;
    }
  }

  /** What a run of calls leaves and answers, over the copying store. */
  datatype Served = Served(d: Durable, memory: BankMemory, replies: seq<Reply>)

  function ServedAll(cfg: Config, d: Durable, memory: BankMemory, ops: seq<Op>): Served {
    if ops == [] then Served(d, memory, [])
    else
      var before := ServedAll(cfg, d, memory, ops[..|ops| - 1]);
      var effect := EffectOf(cfg, before.d, before.memory, ops[|ops| - 1]);
      Served(ApplyAll(before.d, effect.script), effect.memory, before.replies + [effect.reply])
  }

  /** What a crash in the bank call leaves is what the serial system calls a crash after
      so many writes. */
  lemma CrashesAreRunSteps(cfg: Config, w: S.World, crash: Option<CrashAt>, ctx: Context, token: Id, t1: Instant,
                           t2: Instant, payment: Id)
    requires Reaches(cfg, w.d, ctx, token, t1)
    ensures var op := ConfirmOp(ctx, token, t1, t2, payment);
      var call := PaymentCall(cfg, w.d, S.MemoryOf(cfg, w, PrincipalOf(ctx)), ctx, token, t2, payment);
      var remains := Remains(crash, ByToken(w.d, token).value, ctx, token, t2, call);
      S.Next(cfg, w, S.Crashed(op, |remains|)).d == ApplyAll(w.d, remains)
  {
    hide ApplyAll;
    var op, r := ConfirmOp(ctx, token, t1, t2, payment), ByToken(w.d, token).value;
    var memory := S.MemoryOf(cfg, w, PrincipalOf(ctx));
    var call := PaymentCall(cfg, w.d, memory, ctx, token, t2, payment);
    var consent, filed := ConsentScript(r, ctx, token, t2), FileScript(r.id, call.filed);
    var settle := SettleScript(SubmittedRow(r, ctx, t2), call.answer);
    var script := S.EffectIn(cfg, w, op).script;
    assert script == consent + (filed + settle);
    var remains := Remains(crash, r, ctx, token, t2, call);
    assert script[..|remains|] == remains;
  }

  method PrincipalOfTrail(trail: seq<Entry>) returns (owner: Option<Principal>)
    ensures owner == TrailOwner(trail)
  {
    var i := 0;
    assert trail[0..] == trail;
    while i < |trail|
      invariant 0 <= i <= |trail|
      invariant TrailOwner(trail) == TrailOwner(trail[i..])
    {
      assert trail[i..][0] == trail[i] && trail[i..][1..] == trail[i + 1..];
      if trail[i].Request? {
        return Some(Principal(trail[i].customer, trail[i].session));
      }
      i := i + 1;
    }
    return None;
  }
}
