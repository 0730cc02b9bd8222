/** What every operation of every run answers, moves and records, read off the state before
    and after it, in figures. */
module Answers {
  import opened Actions
  import opened Policy
  import opened Machine
  import opened Bank
  import opened Plane
  import opened Audit
  import opened Intents
  import opened Serial

  // ---------------------------------------------------------------- what is shown

  /** A contact goes by the name of the first with its id, and by the id when there is none. */
  ghost predicate ShownAs(contacts: seq<Contact>, id: Id, name: string) {
    || (name == id && forall k | 0 <= k < |contacts| :: contacts[k].id != id)
    || exists k | 0 <= k < |contacts| :: FirstWith(contacts, id, k) && contacts[k].name == name
  }

  ghost predicate FirstWith(contacts: seq<Contact>, id: Id, k: nat)
    requires k < |contacts|
  {
    contacts[k].id == id && forall j | 0 <= j < k :: contacts[j].id != id
  }

  lemma {:induction false} NameIsShown(contacts: seq<Contact>, id: Id)
    ensures ShownAs(contacts, id, NameOf(contacts, id))
  {
    if contacts == [] {
    } else if contacts[0].id == id {
      assert FirstWith(contacts, id, 0);
    } else {
      var rest, name := contacts[1..], NameOf(contacts, id);
      NameIsShown(rest, id);
      if exists k | 0 <= k < |rest| :: FirstWith(rest, id, k) && rest[k].name == name {
        var k :| 0 <= k < |rest| && FirstWith(rest, id, k) && rest[k].name == name;
        assert forall j | 0 < j < k + 1 :: contacts[j] == rest[j - 1];
        assert FirstWith(contacts, id, k + 1);
      } else {
        assert forall j | 0 < j < |contacts| :: contacts[j] == rest[j - 1];
      }
    }
  }

  /** The reply shows this row, with this status. */
  ghost predicate Tells(cfg: Config, reply: Reply, r: Row, status: Status) {
    && reply.Outcome? && reply.status == status && reply.intent == Some(r.id) && reply.token == r.token
    && reply.data.Summary? && ShownAs(cfg.contacts, r.action.recipient, reply.data.recipient)
    && reply.data.amount == r.action.amount && reply.data.state == r.state && reply.data.receipt == r.receipt
  }

  lemma StatusTells(cfg: Config, r: Row, refused: bool)
    ensures Tells(cfg, StatusOf(cfg, r, refused), r,
                  if refused || !IsSettled(r.state) then Decided(Deny) else Settled(r.state))
  {
    NameIsShown(cfg.contacts, r.action.recipient);
  }

  // ---------------------------------------------------------------- what is recorded

  function Entered(ws: seq<Write>): seq<Entry> {
    if ws == [] then []
    else if ws[0].Append? then [ws[0].entry] + Entered(ws[1..])
    else Entered(ws[1..])
  }

  function Stamped(id: Id, entries: seq<Entry>): seq<Event> {
    seq(|entries|, i requires 0 <= i < |entries| => Event(id, entries[i]))
  }

  lemma {:induction false} EnteredConcat(ws: seq<Write>, vs: seq<Write>)
    ensures Entered(ws + vs) == Entered(ws) + Entered(vs)
    decreases |ws|
  {
    if ws == [] {
      assert ws + vs == vs;
    } else {
      assert (ws + vs)[1..] == ws[1..] + vs;
      EnteredConcat(ws[1..], vs);
    }
  }

  lemma OneEnters(w: Write)
    ensures Entered([w]) == if w.Append? then [w.entry] else []
  {
    assert [w][1..] == [];
  }

  lemma MoveEnters(r: Row, hop: Hop)
    requires CanMove(r, hop)
    ensures var issues := hop == AwaitConfirmation;
      Entered(Move(r, hop)) == [Transition(r.state, hop, Moved(r, hop).state, if issues then r.token else None,
                                           if issues then r.digest else None)]
  {
    var ws := Move(r, hop);
    assert ws == [ws[0]] + [ws[1]];
    EnteredConcat([ws[0]], [ws[1]]);
    OneEnters(ws[0]);
    OneEnters(ws[1]);
  }

  lemma {:induction false} LedgerGrows(d: Durable, ws: seq<Write>, id: Id)
    requires AllAbout(ws, id)
    ensures ApplyAll(d, ws).ledger == d.ledger + Stamped(id, Entered(ws))
    decreases |ws|
  {
    if ws == [] {
      assert d.ledger + Stamped(id, []) == d.ledger;
    } else {
      assert ws[0] in ws && forall x | x in ws[1..] :: x in ws;
      LedgerGrows(Apply(d, ws[0]), ws[1..], id);
      if ws[0].Append? {
        var rest := Entered(ws[1..]);
        assert Entered(ws) == [ws[0].entry] + rest;
        assert d.ledger + [Event(id, ws[0].entry)] + Stamped(id, rest)
            == d.ledger + Stamped(id, [ws[0].entry] + rest);
      } else {
        assert Entered(ws) == Entered(ws[1..]);
      }
    }
  }

  lemma {:induction false} OtherRowsStay(d: Durable, ws: seq<Write>, id: Id)
    requires AllAbout(ws, id)
    ensures forall other | other != id :: Lookup(ApplyAll(d, ws).rows, other) == Lookup(d.rows, other)
    decreases |ws|
  {
    if ws != [] {
      assert ws[0] in ws && forall x | x in ws[1..] :: x in ws;
      OtherRowsStay(Apply(d, ws[0]), ws[1..], id);
    }
  }

  /** One row stored as `r`, these entries recorded under its id, nothing else changed. */
  ghost predicate Leaves(d: Durable, d': Durable, r: Row, entries: seq<Entry>) {
    d'.rows == d.rows[r.id := r] && d'.ledger == d.ledger + Stamped(r.id, entries)
  }

  lemma ScriptLeaves(d: Durable, ws: seq<Write>, r: Row)
    requires AllAbout(ws, r.id)
    ensures Leaves(d, ApplyAll(d, ws + [Put(r)]), r, Entered(ws))
  {
    var script := ws + [Put(r)];
    LastPutWins(d, ws, r);
    OtherRowsStay(d, script, r.id);
    LedgerGrows(d, script, r.id);
    EnteredConcat(ws, [Put(r)]);
    assert Entered([Put(r)]) == [];
    var d' := ApplyAll(d, script);
    forall other
      ensures Lookup(d'.rows, other) == Lookup(d.rows[r.id := r], other)
    {
    }
    SameRows(d'.rows, d.rows[r.id := r]);
  }

  lemma SameRows(rows: map<Id, Row>, rows': map<Id, Row>)
    requires forall id :: Lookup(rows, id) == Lookup(rows', id)
    ensures rows == rows'
  {
    forall id
      ensures id in rows.Keys <==> id in rows'.Keys
    {
      assert Lookup(rows, id).Some? <==> Lookup(rows', id).Some?;
    }
    forall id | id in rows
      ensures rows[id] == rows'[id]
    {
      assert Lookup(rows, id) == Lookup(rows', id);
    }
  }

  /** Whatever else the step did, no money moved. */
  ghost predicate NothingPaid(cfg: Config, w: World, w': World, p: Principal) {
    w'.d.book == w.d.book && MemoryOf(cfg, w', p) == MemoryOf(cfg, w, p)
  }

  lemma DoneNext(cfg: Config, steps: seq<Step>, op: Op)
    requires ValidRun(cfg, None, steps + [Done(op)])
    ensures Inv(cfg, None, Run(cfg, steps)) && Allowed(None, Run(cfg, steps), Done(op))
    ensures Run(cfg, steps + [Done(op)]) == Next(cfg, Run(cfg, steps), Done(op))
  {
    RunSnoc(cfg, None, steps, Done(op));
    EveryRunIsGood(cfg, None, steps);
  }

  // ---------------------------------------------------------------- references

  /** The token is this intent's, and this conversation's. */
  predicate Holds(d: Durable, p: Principal, token: Id, id: Id) {
    id in d.rows && d.rows[id].token == Some(token) && OwnerOf(d.rows[id]) == p
  }

  lemma HeldIsFound(cfg: Config, w: World, ctx: Context, token: Id, id: Id)
    requires Inv(cfg, None, w) && Holds(w.d, PrincipalOf(ctx), token, id)
    ensures OwnedByToken(w.d, ctx, token) == Some(w.d.rows[id]) && w.d.rows[id].id == id
    ensures var r := w.d.rows[id];
      && !BeforeToken(r.state) && r.state !in {Pending, Reversed}
      && (r.state == AwaitingConfirmation ==> id !in w.d.book && r.receipt.None?)
  {
    ScanAgreesWithUniqueIndex(cfg, None, w, token, id);
    assert Good(EnvAt(cfg, None, w.now), id, ViewOf(cfg.secret, w.d, id));
  }

  /** The operation names an intent the caller may speak of. Step-up and reconciliation ask for
      the same customer, the rest for the same conversation. */
  ghost predicate Refers(d: Durable, op: Op) {
    match op
    case ConfirmOp(ctx, token, _, _, _) => exists id :: Holds(d, PrincipalOf(ctx), token, id)
    case CancelOp(ctx, token) => exists id :: Holds(d, PrincipalOf(ctx), token, id)
    case StepUpOp(ctx, id, _, _, _) => id in d.rows && d.rows[id].context.customer == ctx.customer
    case ReconcileOp(ctx, id) => id in d.rows && d.rows[id].context.customer == ctx.customer
    case StatusOp(ctx, id) =>
      id in d.rows && d.rows[id].context.customer == ctx.customer && d.rows[id].context.session == ctx.session
    case _ => true
  }

  /** Someone else's reference and one that never existed are answered alike, and nothing
      is written. */
  lemma UnknownReferencesLookAlike(cfg: Config, steps: seq<Step>, op: Op)
    requires ValidRun(cfg, None, steps + [Done(op)]) && !Refers(Run(cfg, steps).d, op)
    ensures var w, w' := Run(cfg, steps), Run(cfg, steps + [Done(op)]);
      && EffectIn(cfg, w, op).reply == Outcome(Decided(Deny), None, None, NoData)
      && w'.d == w.d && NothingPaid(cfg, w, w', PrincipalOn(op))
  {
    DoneNext(cfg, steps, op);
    var w := Run(cfg, steps);
    if op.ConfirmOp? || op.CancelOp? {
      if OwnedByToken(w.d, op.ctx, op.token).Some? {
        FoundRow(cfg, None, w, op.token);
        assert Holds(w.d, PrincipalOf(op.ctx), op.token, ByToken(w.d, op.token).value.id);
      }
    }
  }

  // ---------------------------------------------------------------- cancel, reconcile, status

  /** Moved exactly when it awaits confirmation, which is when CANCELLED is answered;
      anything else is refused, and the refusal is on record. */
  ghost predicate CancelledRightly(cfg: Config, w: World, w': World, op: Op, id: Id)
    requires op.CancelOp? && id in w.d.rows
  {
    var r, moved := w.d.rows[id], w.d.rows[id].state == AwaitingConfirmation;
    var r' := if moved then r.(state := Cancelled) else r;
    && NothingPaid(cfg, w, w', PrincipalOf(op.ctx))
    && Leaves(w.d, w'.d, r', if moved then [Transition(AwaitingConfirmation, Cancel, Cancelled, None, None)]
                             else [TransitionRefused(r.state, Cancel)])
    && Tells(cfg, EffectIn(cfg, w, op).reply, r', if moved then Settled(Cancelled) else Decided(Deny))
  }

  lemma NoteLeaves(d: Durable, r: Row, e: Entry)
    requires r.id in d.rows && d.rows[r.id] == r
    ensures Leaves(d, ApplyAll(d, [Append(r.id, e)]), r, [e])
    ensures ApplyAll(d, [Append(r.id, e)]).book == d.book && ApplyAll(d, [Append(r.id, e)]).rows == d.rows
  {
    assert [Append(r.id, e)][1..] == [];
    assert Stamped(r.id, [e]) == [Event(r.id, e)];
    assert d.rows[r.id := r] == d.rows;
  }

  lemma CancelLeaves(d: Durable, r: Row)
    requires r.state == AwaitingConfirmation
    ensures var d' := ApplyAll(d, Move(r, Cancel) + [Put(Moved(r, Cancel))]);
      && d'.book == d.book
      && Leaves(d, d', r.(state := Cancelled), [Transition(AwaitingConfirmation, Cancel, Cancelled, None, None)])
  {
    hide Leaves, ApplyAll;
    MoveEnters(r, Cancel);
    ScriptLeaves(d, Move(r, Cancel), Moved(r, Cancel));
    FilesNothing(d, Move(r, Cancel) + [Put(Moved(r, Cancel))]);
  }

  lemma CancelIsRight(cfg: Config, w: World, op: Op, id: Id)
    requires Inv(cfg, None, w) && op.CancelOp? && Holds(w.d, PrincipalOf(op.ctx), op.token, id)
    ensures CancelledRightly(cfg, w, Next(cfg, w, Done(op)), op, id)
  {
    hide Good, Tells, Leaves, ApplyAll, StatusOf, OwnedByToken;
    var r := w.d.rows[id];
    HeldIsFound(cfg, w, op.ctx, op.token, id);
    hide Inv;
    if r.state == AwaitingConfirmation {
      CancelLeaves(w.d, r);
      StatusTells(cfg, Moved(r, Cancel), false);
    } else {
      NoteLeaves(w.d, r, TransitionRefused(r.state, Cancel));
      StatusTells(cfg, r, true);
    }
  }

  lemma CancelAnswers(cfg: Config, steps: seq<Step>, op: Op, id: Id)
    requires ValidRun(cfg, None, steps + [Done(op)]) && op.CancelOp?
    requires Holds(Run(cfg, steps).d, PrincipalOf(op.ctx), op.token, id)
    ensures CancelledRightly(cfg, Run(cfg, steps), Run(cfg, steps + [Done(op)]), op, id)
  {
    DoneNext(cfg, steps, op);
    hide Run, ValidRun, Inv, CancelledRightly;
    CancelIsRight(cfg, Run(cfg, steps), op, id);
  }

  /** An UNKNOWN intent becomes what the book says; any other is only reported, and one not
      settled is reported as refused. */
  ghost predicate ReconciledRightly(cfg: Config, w: World, w': World, op: Op)
    requires op.ReconcileOp? && op.id in w.d.rows
  {
    var r, reply, booked := w.d.rows[op.id], EffectIn(cfg, w, op).reply, op.id in w.d.book;
    && NothingPaid(cfg, w, w', PrincipalOf(op.ctx))
    && (r.state == Unknown ==>
          var r' := if booked then r.(state := Completed, receipt := Some(w.d.book[op.id])) else r.(state := Failed);
          && Leaves(w.d, w'.d, r', [Reconciliation(booked), Transition(Unknown, if booked then Complete else Fail,
                                                                       r'.state, None, None)])
          && Tells(cfg, reply, r', Settled(r'.state)))
    && (r.state != Unknown ==> w'.d == w.d && Reported(cfg, reply, r))
  }

  /** A settled intent is reported in its state, any other as refused. */
  ghost predicate Reported(cfg: Config, reply: Reply, r: Row) {
    Tells(cfg, reply, r, if r.state in {Completed, Failed, Cancelled, Unknown} then Settled(r.state)
                         else Decided(Deny))
  }

  lemma RowIsSound(cfg: Config, w: World, id: Id)
    requires Inv(cfg, None, w) && id in w.d.rows
    ensures w.d.rows[id].id == id && w.d.rows[id].state !in {Pending, Reversed}
    ensures w.d.rows[id].state != Completed ==> w.d.rows[id].receipt.None?
    ensures BeforeToken(w.d.rows[id].state) ==> w.d.rows[id].token.None?
  {
    assert Good(EnvAt(cfg, None, w.now), id, ViewOf(cfg.secret, w.d, id));
  }

  lemma ReconcileLeaves(d: Durable, r: Row, booked: Option<Receipt>)
    requires r.state == Unknown && r.receipt.None?
    ensures var r' := if booked.Some? then r.(state := Completed, receipt := booked) else r.(state := Failed);
      Leaves(d, ApplyAll(d, ReconcileScript(r, booked)), r',
             [Reconciliation(booked.Some?), Transition(Unknown, if booked.Some? then Complete else Fail, r'.state,
                                                       None, None)])
    ensures ApplyAll(d, ReconcileScript(r, booked)).book == d.book
  {
    hide Leaves, ApplyAll;
    ReconcileQuiet(r, booked);
    FilesNothing(d, ReconcileScript(r, booked));
    var head := [Append(r.id, Reconciliation(booked.Some?))];
    OneEnters(head[0]);
    if booked.None? {
      MoveEnters(r, Fail);
      EnteredConcat(head, Move(r, Fail));
      ScriptLeaves(d, head + Move(r, Fail), Moved(r, Fail));
      assert head + Move(r, Fail) + [Put(Moved(r, Fail))] == ReconcileScript(r, booked);
      assert Entered(head + Move(r, Fail)) == [head[0].entry, Transition(Unknown, Fail, Failed, None, None)];
    } else {
      var paid := r.(receipt := booked);
      var hop := Move(paid, Complete)[..1];
      OneEnters(hop[0]);
      EnteredConcat(head, hop);
      ScriptLeaves(d, head + hop, Moved(paid, Complete));
      assert hop == [hop[0]] && head + hop + [Put(Moved(paid, Complete))] == ReconcileScript(r, booked);
      assert Entered(head + hop) == [head[0].entry, Transition(Unknown, Complete, Completed, None, None)];
    }
  }

  lemma ReconcileIsRight(cfg: Config, w: World, op: Op)
    requires Inv(cfg, None, w) && op.ReconcileOp? && Refers(w.d, op)
    ensures ReconciledRightly(cfg, w, Next(cfg, w, Done(op)), op)
  {
    hide Inv, Tells, Leaves, ApplyAll, StatusOf, ReconcileScript;
    var r, booked := w.d.rows[op.id], Lookup(w.d.book, op.id);
    RowIsSound(cfg, w, op.id);
    if r.state == Unknown {
      ReconcileLeaves(w.d, r, booked);
      StatusTells(cfg, ReconciledRow(r, booked), false);
    } else {
      StatusTells(cfg, r, false);
      NoWrites(w.d);
    }
  }

  lemma NoWrites(d: Durable)
    ensures ApplyAll(d, []) == d
    ensures forall r: Row | r.id in d.rows && d.rows[r.id] == r :: Leaves(d, d, r, [])
  {
    forall r: Row | r.id in d.rows && d.rows[r.id] == r
      ensures Leaves(d, d, r, [])
    {
      assert d.rows[r.id := r] == d.rows && d.ledger + Stamped(r.id, []) == d.ledger;
    }
  }

  lemma ReconcileAnswers(cfg: Config, steps: seq<Step>, op: Op)
    requires ValidRun(cfg, None, steps + [Done(op)]) && op.ReconcileOp? && Refers(Run(cfg, steps).d, op)
    ensures ReconciledRightly(cfg, Run(cfg, steps), Run(cfg, steps + [Done(op)]), op)
  {
    DoneNext(cfg, steps, op);
    hide Run, ValidRun, Inv, ReconciledRightly;
    ReconcileIsRight(cfg, Run(cfg, steps), op);
  }

  /** A status report moves nothing and writes nothing. */
  lemma StatusAnswers(cfg: Config, steps: seq<Step>, op: Op)
    requires ValidRun(cfg, None, steps + [Done(op)]) && op.StatusOp? && Refers(Run(cfg, steps).d, op)
    ensures var w, w' := Run(cfg, steps), Run(cfg, steps + [Done(op)]);
      && w'.d == w.d && NothingPaid(cfg, w, w', PrincipalOf(op.ctx))
      && Reported(cfg, EffectIn(cfg, w, op).reply, w.d.rows[op.id])
  {
    DoneNext(cfg, steps, op);
    var w := Run(cfg, steps);
    RowIsSound(cfg, w, op.id);
    hide Run, ValidRun, Inv, StatusOf, Tells;
    StatusTells(cfg, w.d.rows[op.id], false);
  }

  // ---------------------------------------------------------------- reads

  /** The answer is the balance the conversation's bank holds; the read fails only when it
      holds no such account, and is on record under its own id. */
  ghost predicate QueriedRightly(cfg: Config, w: World, w': World, op: Op)
    requires op.QueryOp?
  {
    var accounts, reply := MemoryOf(cfg, w, PrincipalOf(op.ctx)).accounts, EffectIn(cfg, w, op).reply;
    var asked := Request(op.ctx.customer, op.ctx.session, op.ctx.channel, op.account);
    && NothingPaid(cfg, w, w', PrincipalOf(op.ctx)) && w'.d.rows == w.d.rows
    && (reply == Raised <==> op.account !in accounts)
    && (op.account in accounts ==>
          reply == Outcome(Decided(Allow), Some(op.id), None, Balance(op.account, accounts[op.account])))
    && w'.d.ledger == w.d.ledger
                      + Stamped(op.id, [asked] + if op.account in accounts then [ReadResult(true)] else [])
  }

  lemma QueryIsRight(cfg: Config, w: World, op: Op)
    requires op.QueryOp?
    ensures QueriedRightly(cfg, w, Next(cfg, w, Done(op)), op)
  {
    hide Stamped, ApplyAll;
    var script := EffectIn(cfg, w, op).script;
    QueryQuiet(MemoryOf(cfg, w, PrincipalOf(op.ctx)), op.ctx, op.account, op.id);
    LedgerGrows(w.d, script, op.id);
    AppendsKeepRows(w.d, script);
    OneEnters(script[0]);
    if |script| == 1 {
      assert script == [script[0]];
    } else {
      assert script == [script[0]] + [script[1]];
      EnteredConcat([script[0]], [script[1]]);
      OneEnters(script[1]);
    }
  }

  lemma QueryAnswers(cfg: Config, steps: seq<Step>, op: Op)
    requires ValidRun(cfg, None, steps + [Done(op)]) && op.QueryOp?
    ensures QueriedRightly(cfg, Run(cfg, steps), Run(cfg, steps + [Done(op)]), op)
  {
    DoneNext(cfg, steps, op);
    hide Run, ValidRun, Inv, QueriedRightly;
    QueryIsRight(cfg, Run(cfg, steps), op);
  }

  /** The trail was opened by `p`: its first request names it. */
  ghost predicate OpenedBy(trail: seq<Entry>, p: Principal) {
    exists k | 0 <= k < |trail| ::
      && trail[k].Request? && Principal(trail[k].customer, trail[k].session) == p
      && forall j | 0 <= j < k :: !trail[j].Request?
  }

  lemma {:induction false} OwnerOpened(trail: seq<Entry>, p: Principal)
    ensures TrailOwner(trail) == Some(p) <==> OpenedBy(trail, p)
  {
    if trail != [] && !trail[0].Request? {
      var rest := trail[1..];
      OwnerOpened(rest, p);
      if OpenedBy(trail, p) {
        var k :| 0 <= k < |trail| && trail[k].Request? && Principal(trail[k].customer, trail[k].session) == p
          && forall j | 0 <= j < k :: !trail[j].Request?;
        assert rest[k - 1] == trail[k] && forall j | 0 <= j < k - 1 :: rest[j] == trail[j + 1];
      }
      if OpenedBy(rest, p) {
        var k :| 0 <= k < |rest| && rest[k].Request? && Principal(rest[k].customer, rest[k].session) == p
          && forall j | 0 <= j < k :: !rest[j].Request?;
        assert trail[k + 1] == rest[k] && forall j | 0 < j < k + 1 :: trail[j] == rest[j - 1];
      }
    }
  }

  /** A trail is shown whole to the conversation that opened it, and empty to any other; a
      stored intent's to the conversation it belongs to. */
  lemma ExplainAnswers(cfg: Config, steps: seq<Step>, op: Op)
    requires ValidRun(cfg, None, steps + [Done(op)]) && op.ExplainOp?
    ensures var w, w' := Run(cfg, steps), Run(cfg, steps + [Done(op)]);
      var trail, p := Trail(w.d.ledger, op.id), PrincipalOf(op.ctx);
      && w'.d == w.d && NothingPaid(cfg, w, w', p)
      && EffectIn(cfg, w, op).reply == Events(if OpenedBy(trail, p) then trail else [])
      && (op.id in w.d.rows ==> (OpenedBy(trail, p) <==> OwnerOf(w.d.rows[op.id]) == p))
  {
    DoneNext(cfg, steps, op);
    var w, p := Run(cfg, steps), PrincipalOf(op.ctx);
    OwnerOpened(Trail(w.d.ledger, op.id), p);
    OwnerIsFirstRequest(cfg.secret, Trail(w.d.ledger, op.id));
    assert Good(EnvAt(cfg, None, w.now), op.id, ViewOf(cfg.secret, w.d, op.id));
  }

  // ---------------------------------------------------------------- confirm

  /** More than five minutes after the token was issued. */
  predicate Late(r: Row, now: Instant) {
    r.issuedAt.Some? && now - r.issuedAt.value > 300_000_000
  }

  predicate Altered(cfg: Config, r: Row) {
    r.digest != Some(Digest(cfg.secret, r.action))
  }

  /** The confirmation is refused: the intent neither awaits one nor is among the executed
      ones a repeated confirmation reports, or it was asked in time about another action. */
  predicate ConfirmRefused(cfg: Config, r: Row, now: Instant) {
    || r.state !in {AwaitingConfirmation, Unknown, Completed}
    || (r.state == AwaitingConfirmation && !Late(r, now) && Altered(cfg, r))
  }

  function StateAfter(answer: Answer): State {
    match answer
    case Paid(_) => Completed
    case NoAnswer => Unknown
    case Refused(_) => Failed
  }

  function HopAfter(answer: Answer): Hop {
    match answer
    case Paid(_) => Complete
    case NoAnswer => Timeout
    case Refused(_) => Fail
  }

  /** The row after the bank's answer, and the events from the consent to that answer. */
  function PaidRow(r: Row, op: Op, answer: Answer): Row
    requires op.ConfirmOp?
  {
    r.(confirmedAt := Some(op.t2), confirmedBy := Some(op.ctx.customer), state := StateAfter(answer),
       receipt := if answer.Paid? then Some(answer.receipt) else None)
  }

  function PaidEntries(r: Row, op: Op, answer: Answer): seq<Entry>
    requires op.ConfirmOp?
  {
    [Confirmation(op.token, op.ctx.customer, op.ctx.session, op.ctx.channel, op.t2, r.action),
     Transition(AwaitingConfirmation, Confirm, Authorized, None, None),
     Authorization(r.context.assurance),
     Transition(Authorized, Submit, Submitted, None, None),
     ExecutionRequest(r.id),
     BackendResponse(answer),
     Transition(Submitted, HopAfter(answer), StateAfter(answer), None, None)]
  }

  /** The bank was asked once, for the stored action under the intent's own key. */
  ghost predicate PaidRightly(cfg: Config, w: World, w': World, op: Op, r: Row, answer: Answer)
    requires op.ConfirmOp?
  {
    var p := PrincipalOf(op.ctx);
    && AnsweredRightly(cfg.contacts, Position(MemoryOf(cfg, w, p), w.d.book), Position(MemoryOf(cfg, w', p), w'.d.book),
                       PixCall(r.id, r.action, op.payment), answer)
    && Leaves(w.d, w'.d, PaidRow(r, op, answer), PaidEntries(r, op, answer))
  }

  /** What a confirmation moves and records: executed intents a note, others not awaiting one
      nothing at all, a late one is cancelled, an altered one left waiting, and the rest paid. */
  ghost predicate ConfirmedRightly(cfg: Config, w: World, w': World, op: Op, id: Id)
    requires op.ConfirmOp? && id in w.d.rows
  {
    var r, free := w.d.rows[id], NothingPaid(cfg, w, w', PrincipalOf(op.ctx));
    if r.state != AwaitingConfirmation then
      free && Leaves(w.d, w'.d, r, if r.state in {Submitted, Unknown, Completed} then [DuplicateConfirmation(r.state)]
                                   else [])
    else if Late(r, op.t1) then
      free && Leaves(w.d, w'.d, r.(state := Cancelled),
                     [ConfirmationExpired(r.issuedAt.value),
                      Transition(AwaitingConfirmation, Cancel, Cancelled, None, None)])
    else if Altered(cfg, r) then
      free && Leaves(w.d, w'.d, r, [DigestMismatch(r.digest, Digest(cfg.secret, r.action))])
    else exists answer :: PaidRightly(cfg, w, w', op, r, answer)
  }

  lemma ConsentEnters(r: Row, ctx: Context, token: Id, at: Instant)
    requires r.state == AwaitingConfirmation
    ensures Entered(ConsentScript(r, ctx, token, at)) ==
      [Confirmation(token, ctx.customer, ctx.session, ctx.channel, at, r.action),
       Transition(AwaitingConfirmation, Confirm, Authorized, None, None), Authorization(r.context.assurance),
       Transition(Authorized, Submit, Submitted, None, None), ExecutionRequest(r.id)]
  {
    var consented := Consented(r, ctx, at);
    var authorized := Moved(consented, Confirm);
    var head, confirm, submit := ConsentHead(r, ctx, token, at), Move(consented, Confirm), Move(authorized, Submit);
    var authorize, execute := Append(r.id, Authorization(r.context.assurance)), Append(r.id, ExecutionRequest(r.id));
    assert head == [head[0]] + [head[1]];
    hide Consented, Move, ConsentHead;
    EnteredConcat([head[0]], [head[1]]);
    OneEnters(head[0]);
    OneEnters(head[1]);
    MoveEnters(consented, Confirm);
    MoveEnters(authorized, Submit);
    OneEnters(authorize);
    OneEnters(execute);
    EnteredConcat(head, confirm);
    EnteredConcat(head + confirm, [authorize]);
    EnteredConcat(head + confirm + [authorize], submit);
    EnteredConcat(head + confirm + [authorize] + submit, [execute]);
  }

  /** All of an accepted confirmation's writes but the last. */
  function PaidScript(r: Row, op: Op, effect: PixEffect): seq<Write>
    requires op.ConfirmOp? && r.state == AwaitingConfirmation
  {
    ConsentScript(r, op.ctx, op.token, op.t2) + FileScript(r.id, effect.filed)
    + [Append(r.id, BackendResponse(effect.answer)),
       Append(r.id, Transition(Submitted, HopAfter(effect.answer), StateAfter(effect.answer), None, None))]
  }

  lemma PaidScriptEnds(r: Row, op: Op, effect: PixEffect)
    requires op.ConfirmOp? && r.state == AwaitingConfirmation && r.receipt.None?
    ensures ConsentScript(r, op.ctx, op.token, op.t2) + ExecuteScript(SubmittedRow(r, op.ctx, op.t2), effect)
         == PaidScript(r, op, effect) + [Put(PaidRow(r, op, effect.answer))]
  {
    hide ConsentScript, FileScript;
    var submitted, answer := SubmittedRow(r, op.ctx, op.t2), effect.answer;
    var settle := [Append(r.id, BackendResponse(answer)),
                   Append(r.id, Transition(Submitted, HopAfter(answer), StateAfter(answer), None, None))];
    assert SettleScript(submitted, answer) == settle + [Put(PaidRow(r, op, answer))];
  }

  lemma PaidScriptEnters(r: Row, op: Op, effect: PixEffect)
    requires op.ConfirmOp? && r.state == AwaitingConfirmation
    ensures AllAbout(PaidScript(r, op, effect), r.id)
    ensures Entered(PaidScript(r, op, effect)) == PaidEntries(r, op, effect.answer)
  {
    hide ConsentScript;
    var consent, file := ConsentScript(r, op.ctx, op.token, op.t2), FileScript(r.id, effect.filed);
    var answered := Append(r.id, BackendResponse(effect.answer));
    var moved := Append(r.id, Transition(Submitted, HopAfter(effect.answer), StateAfter(effect.answer), None, None));
    ConsentAbout(r, op.ctx, op.token, op.t2);
    ConsentEnters(r, op.ctx, op.token, op.t2);
    FileEnters(r.id, effect.filed);
    OneEnters(answered);
    OneEnters(moved);
    EnteredConcat(consent, file);
    EnteredConcat([answered], [moved]);
    assert [answered, moved] == [answered] + [moved];
    EnteredConcat(consent + file, [answered, moved]);
  }

  lemma FileEnters(id: Id, filed: Option<Receipt>)
    ensures Entered(FileScript(id, filed)) == []
  {
    if filed.Some? {
      OneEnters(FileScript(id, filed)[0]);
    }
  }

  lemma FiledOnce(d: Durable, before: seq<Write>, id: Id, filed: Option<Receipt>, after: seq<Write>)
    requires id !in d.book
    requires forall x | x in before + after :: !x.File?
    ensures ApplyAll(d, before + FileScript(id, filed) + after).book
         == if filed.Some? then d.book[id := filed.value] else d.book
  {
    var file := FileScript(id, filed);
    var d1 := ApplyAll(d, before);
    ApplyAllConcat(d, before, file);
    ApplyAllConcat(d, before + file, after);
    assert forall x | x in before :: x in before + after;
    assert forall x | x in after :: x in before + after;
    FilesNothing(d, before);
    FilesNothing(ApplyAll(d1, file), after);
    if filed.Some? {
      assert file[1..] == [];
    }
  }

  lemma PaidBook(d: Durable, r: Row, op: Op, effect: PixEffect)
    requires op.ConfirmOp? && r.state == AwaitingConfirmation && r.receipt.None? && r.id !in d.book
    ensures ApplyAll(d, PaidScript(r, op, effect) + [Put(PaidRow(r, op, effect.answer))]).book
         == if effect.filed.Some? then d.book[r.id := effect.filed.value] else d.book
  {
    var consent, file := ConsentScript(r, op.ctx, op.token, op.t2), FileScript(r.id, effect.filed);
    var after := SettleScript(SubmittedRow(r, op.ctx, op.t2), effect.answer);
    FiledOnce(d, consent, r.id, effect.filed, after);
    PaidScriptEnds(r, op, effect);
    assert consent + file + after == consent + ExecuteScript(SubmittedRow(r, op.ctx, op.t2), effect);
  }

  lemma AcceptedIsFound(cfg: Config, w: World, op: Op, id: Id)
    requires Inv(cfg, None, w) && op.ConfirmOp? && Holds(w.d, PrincipalOf(op.ctx), op.token, id)
    requires w.d.rows[id].state == AwaitingConfirmation && !Late(w.d.rows[id], op.t1) && !Altered(cfg, w.d.rows[id])
    ensures var r, memory := w.d.rows[id], MemoryOf(cfg, w, PrincipalOf(op.ctx));
      var call := PixOn(cfg.contacts, memory, Lookup(w.d.book, id), r.action, op.payment);
      && r.id == id && r.receipt.None? && id !in w.d.book
      && EffectIn(cfg, w, op) == Effect(PaidScript(r, op, call) + [Put(PaidRow(r, op, call.answer))], call.memory,
                                        StatusOf(cfg, PaidRow(r, op, call.answer), false))
  {
    hide Inv, StatusOf, ConsentScript, PaidScript, PixOn, ExecuteScript;
    HeldIsFound(cfg, w, op.ctx, op.token, id);
    var r, memory := w.d.rows[id], MemoryOf(cfg, w, PrincipalOf(op.ctx));
    var call := PixOn(cfg.contacts, memory, Lookup(w.d.book, id), r.action, op.payment);
    PaidScriptEnds(r, op, call);
  }

  lemma PaymentIsRight(cfg: Config, w: World, op: Op, id: Id)
    requires Inv(cfg, None, w) && op.ConfirmOp? && Holds(w.d, PrincipalOf(op.ctx), op.token, id)
    requires w.d.rows[id].state == AwaitingConfirmation && !Late(w.d.rows[id], op.t1) && !Altered(cfg, w.d.rows[id])
    ensures ConfirmedRightly(cfg, w, Next(cfg, w, Done(op)), op, id)
    ensures var r' := Next(cfg, w, Done(op)).d.rows[id]; Tells(cfg, EffectIn(cfg, w, op).reply, r', Settled(r'.state))
  {
    AcceptedIsFound(cfg, w, op, id);
    hide Inv, StatusOf, Tells, PaidScript, EffectIn, AnsweredRightly, PixOn, PaidEntries, ApplyAll;
    var r, memory := w.d.rows[id], MemoryOf(cfg, w, PrincipalOf(op.ctx));
    var call := PixOn(cfg.contacts, memory, Lookup(w.d.book, id), r.action, op.payment);
    var r' := PaidRow(r, op, call.answer);
    PaidScriptEnters(r, op, call);
    PaidBook(w.d, r, op, call);
    ScriptLeaves(w.d, PaidScript(r, op, call), r');
    StatusTells(cfg, r', false);
    EveryRequestIsAnsweredRightly(cfg.contacts, Position(memory, w.d.book), PixCall(id, r.action, op.payment));
    assert PaidRightly(cfg, w, Next(cfg, w, Done(op)), op, r, call.answer);
  }

  lemma LateLeaves(d: Durable, r: Row)
    requires r.state == AwaitingConfirmation && r.issuedAt.Some? && r.id !in d.book
    ensures var ws := [Append(r.id, ConfirmationExpired(r.issuedAt.value))] + Move(r, Cancel);
      var d' := ApplyAll(d, ws + [Put(Moved(r, Cancel))]);
      && d'.book == d.book && r.id in d'.rows && d'.rows[r.id] == r.(state := Cancelled)
      && Leaves(d, d', r.(state := Cancelled),
                [ConfirmationExpired(r.issuedAt.value),
                 Transition(AwaitingConfirmation, Cancel, Cancelled, None, None)])
  {
    hide Leaves, ApplyAll;
    var head := [Append(r.id, ConfirmationExpired(r.issuedAt.value))];
    OneEnters(head[0]);
    MoveEnters(r, Cancel);
    EnteredConcat(head, Move(r, Cancel));
    assert Entered(head + Move(r, Cancel))
        == [head[0].entry, Transition(AwaitingConfirmation, Cancel, Cancelled, None, None)];
    ScriptLeaves(d, head + Move(r, Cancel), Moved(r, Cancel));
    LastPutWins(d, head + Move(r, Cancel), Moved(r, Cancel));
    FilesNothing(d, head + Move(r, Cancel) + [Put(Moved(r, Cancel))]);
  }

  lemma UnpaidIsRight(cfg: Config, w: World, op: Op, id: Id)
    requires Inv(cfg, None, w) && op.ConfirmOp? && Holds(w.d, PrincipalOf(op.ctx), op.token, id)
    requires var r := w.d.rows[id]; r.state == AwaitingConfirmation ==> Late(r, op.t1) || Altered(cfg, r)
    ensures ConfirmedRightly(cfg, w, Next(cfg, w, Done(op)), op, id)
    ensures var r' := Next(cfg, w, Done(op)).d.rows[id];
      Tells(cfg, EffectIn(cfg, w, op).reply, r',
            if ConfirmRefused(cfg, w.d.rows[id], op.t1) then Decided(Deny) else Settled(r'.state))
  {
    hide Leaves, ApplyAll, StatusOf, OwnedByToken, Tells, Inv, ConsentScript, ExecuteScript;
    var r := w.d.rows[id];
    HeldIsFound(cfg, w, op.ctx, op.token, id);
    StatusTells(cfg, r, false);
    StatusTells(cfg, r, true);
    if r.state == AwaitingConfirmation && Late(r, op.t1) {
      LateLeaves(w.d, r);
      StatusTells(cfg, Moved(r, Cancel), false);
    } else {
      if r.state in {Submitted, Unknown, Completed} {
        NoteLeaves(w.d, r, DuplicateConfirmation(r.state));
      } else if r.state == AwaitingConfirmation {
        NoteLeaves(w.d, r, DigestMismatch(r.digest, Digest(cfg.secret, r.action)));
      } else {
        NoWrites(w.d);
      }
    }
  }

  /** A confirmation that is let through, comes too late, or repeats one already executed is
      answered with the state it leaves stored; any other is refused. COMPLETED is answered
      exactly when it is what is stored. */
  lemma ConfirmAnswers(cfg: Config, steps: seq<Step>, op: Op, id: Id)
    requires ValidRun(cfg, None, steps + [Done(op)]) && op.ConfirmOp?
    requires Holds(Run(cfg, steps).d, PrincipalOf(op.ctx), op.token, id)
    ensures var w, w' := Run(cfg, steps), Run(cfg, steps + [Done(op)]);
      var reply := EffectIn(cfg, w, op).reply;
      && ConfirmedRightly(cfg, w, w', op, id)
      && id in w'.d.rows
      && Tells(cfg, reply, w'.d.rows[id],
               if ConfirmRefused(cfg, w.d.rows[id], op.t1) then Decided(Deny) else Settled(w'.d.rows[id].state))
      && (reply.status == Settled(Completed) <==> w'.d.rows[id].state == Completed)
  {
    DoneNext(cfg, steps, op);
    hide Run, ValidRun, Inv, EffectIn, Next, Leaves, AnsweredRightly, ShownAs, PaidEntries, PaidRow;
    var w, w' := Run(cfg, steps), Run(cfg, steps + [Done(op)]);
    var r := w.d.rows[id];
    RowIsSound(cfg, w, id);
    if r.state == AwaitingConfirmation && !Late(r, op.t1) && !Altered(cfg, r) {
      PaymentIsRight(cfg, w, op, id);
    } else {
      UnpaidIsRight(cfg, w, op, id);
    }
    ConfirmedIsStored(cfg, w, w', op, id);
  }

  lemma ConfirmedIsStored(cfg: Config, w: World, w': World, op: Op, id: Id)
    requires op.ConfirmOp? && id in w.d.rows && w.d.rows[id].id == id && ConfirmedRightly(cfg, w, w', op, id)
    ensures id in w'.d.rows
    ensures ConfirmRefused(cfg, w.d.rows[id], op.t1) ==> w'.d.rows[id] == w.d.rows[id]
  {
    hide AnsweredRightly, PaidEntries;
  }

  // ---------------------------------------------------------------- what policy decides

  predicate PolicyRefuses(action: CreatePix, now: Instant) {
    action.amount > 5_000_00 || (action.amount > 1_000_00 && ByNight(now))
  }

  /** Above R$ 1 000, or with two of the three signals, only strong assurance will do; low
      never does. */
  predicate NeedsStepUp(action: CreatePix, ctx: Context, known: set<string>) {
    || ctx.assurance == Low
    || (ctx.assurance == Medium
        && (action.amount > 1_000_00
            || AnyTwo(action.recipient !in known, action.amount > 500_00, !ctx.deviceTrusted)))
  }

  function DecisionOn(action: CreatePix, ctx: Context, known: set<string>, now: Instant): Decision {
    if PolicyRefuses(action, now) then Deny
    else if NeedsStepUp(action, ctx, known) then RequireStepUpAuth
    else RequireConfirmation
  }

  /** The stored row: refused, waiting for a step-up, or waiting with a token issued now, for
      this very action. */
  function DecidedRow(cfg: Config, r: Row, decision: Decision, token: Id, at: Instant): Row {
    match decision
    case RequireStepUpAuth => r.(state := AwaitingStepUp)
    case RequireConfirmation =>
      r.(state := AwaitingConfirmation, token := Some(token), issuedAt := Some(at),
         digest := Some(Digest(cfg.secret, r.action)))
    case _ => r.(state := Cancelled)
  }

  function RuleOf(action: CreatePix, decision: Decision): Rule {
    match decision
    case RequireStepUpAuth => PixStepUp
    case RequireConfirmation => CapabilityRequiresConfirmation
    case _ => if action.amount > 5_000_00 then HardLimit else NighttimeLimit
  }

  function HopOf(decision: Decision): Hop {
    match decision
    case RequireStepUpAuth => RequireStepUp
    case RequireConfirmation => AwaitConfirmation
    case _ => Reject
  }

  function DecidedEntries(r: Row, risk: Risk, decision: Decision, r': Row): seq<Entry> {
    var issued := decision == RequireConfirmation;
    [RiskScored(risk), PolicyVerdict(Verdict(decision, RuleOf(r.action, decision))),
     Transition(Validated, HopOf(decision), r'.state, if issued then r'.token else None,
                if issued then r'.digest else None)]
  }

  lemma VerdictIs(r: Row, memory: BankMemory, now: Instant)
    ensures var decision := DecisionOn(r.action, r.context, memory.paidBefore, now);
      && decision in {Deny, RequireStepUpAuth, RequireConfirmation}
      && VerdictOn(r, memory, now) == Verdict(decision, RuleOf(r.action, decision))
  {
    var risk := RiskOf(r.action, r.context, memory.paidBefore);
    RiskIsAssessedRightly(r.action, r.context, memory.paidBefore);
    VerdictsAreRight(r.action, r.context, risk, now);
    hide Evaluate, RiskOf, ByNight;
  }

  lemma DecideEnters(cfg: Config, r: Row, memory: BankMemory, token: Id, t1: Instant, t2: Instant)
    requires r.state == Validated
    ensures var decision := DecisionOn(r.action, r.context, memory.paidBefore, t1);
      var r' := DecidedRow(cfg, r, decision, token, t2);
      var script := Decide(cfg, r, memory, token, t1, t2).0;
      && script != [] && script[|script| - 1] == Put(r')
      && Entered(script) == DecidedEntries(r, RiskOf(r.action, r.context, memory.paidBefore), decision, r')
  {
    hide VerdictOn, RiskOf, DecisionOn;
    VerdictIs(r, memory, t1);
    var decision := DecisionOn(r.action, r.context, memory.paidBefore, t1);
    var head, applied := DecideHead(r, memory, t1), ApplyVerdict(cfg, r, VerdictOn(r, memory, t1), token, t2).0;
    EnteredConcat(head, applied);
    assert head == [head[0]] + [head[1]];
    EnteredConcat([head[0]], [head[1]]);
    OneEnters(head[0]);
    OneEnters(head[1]);
    if decision == RequireStepUpAuth {
      MoveEnters(r, RequireStepUp);
    } else if decision == RequireConfirmation {
      MoveEnters(Issued(cfg, r, token, t2), AwaitConfirmation);
    } else {
      var rejected := Put(Moved(r, Reject));
      MoveEnters(r, Reject);
      EnteredConcat(Move(r, Reject), [rejected]);
      OneEnters(rejected);
    }
  }

  lemma DecideTells(cfg: Config, r: Row, memory: BankMemory, token: Id, t1: Instant, t2: Instant)
    requires r.state == Validated && r.token.None? && r.receipt.None?
    ensures var decision := DecisionOn(r.action, r.context, memory.paidBefore, t1);
      Tells(cfg, Decide(cfg, r, memory, token, t1, t2).1, DecidedRow(cfg, r, decision, token, t2), Decided(decision))
  {
    hide VerdictOn, RiskOf, DecisionOn, ShownAs, NameOf;
    VerdictIs(r, memory, t1);
    NameIsShown(cfg.contacts, r.action.recipient);
  }

  /** The intent ends as policy decides, with the entries of the decision after `before`. */
  ghost predicate DecidedRightly(cfg: Config, d: Durable, d': Durable, r: Row, known: set<string>, op: Op,
                                 before: seq<Entry>, reply: Reply)
    requires op.ProposeOp? || op.StepUpOp?
  {
    var decision := DecisionOn(r.action, r.context, known, op.t1);
    var r' := DecidedRow(cfg, r, decision, op.token, op.t2);
    && Tells(cfg, reply, r', Decided(decision))
    && exists risk ::
         && AssessedRightly(risk, r.action, r.context, known)
         && Leaves(d, d', r', before + DecidedEntries(r, risk, decision, r'))
  }

  lemma ScriptEnds(d: Durable, ws: seq<Write>, r: Row)
    requires ws != [] && ws[|ws| - 1] == Put(r) && AllAbout(ws, r.id)
    ensures Leaves(d, ApplyAll(d, ws), r, Entered(ws))
  {
    var n := |ws| - 1;
    assert ws == ws[..n] + [Put(r)];
    ScriptLeaves(d, ws[..n], r);
    EnteredConcat(ws[..n], [Put(r)]);
    OneEnters(Put(r));
  }

  lemma DecisionIsRight(cfg: Config, d: Durable, r: Row, memory: BankMemory, op: Op, ws: seq<Write>)
    requires op.ProposeOp? || op.StepUpOp?
    requires r.state == Validated && r.token.None? && r.receipt.None? && Quiet(ws, r.id)
    ensures var decided := Decide(cfg, r, memory, op.token, op.t1, op.t2);
      && DecidedRightly(cfg, d, ApplyAll(d, ws + decided.0), r, memory.paidBefore, op, Entered(ws), decided.1)
      && ApplyAll(d, ws + decided.0).book == d.book
  {
    hide Decide, DecisionOn, DecidedRow, DecidedEntries, Tells, Leaves, AssessedRightly, RiskOf, ApplyAll;
    var decided := Decide(cfg, r, memory, op.token, op.t1, op.t2);
    var decision := DecisionOn(r.action, r.context, memory.paidBefore, op.t1);
    var r', risk := DecidedRow(cfg, r, decision, op.token, op.t2), RiskOf(r.action, r.context, memory.paidBefore);
    RiskIsAssessedRightly(r.action, r.context, memory.paidBefore);
    DecideEnters(cfg, r, memory, op.token, op.t1, op.t2);
    DecideTells(cfg, r, memory, op.token, op.t1, op.t2);
    DecideQuiet(cfg, r, memory, op.token, op.t1, op.t2);
    DecidedKeepsId(cfg, r, decision, op.token, op.t2);
    EnteredConcat(ws, decided.0);
    ScriptEnds(d, ws + decided.0, r');
    FilesNothing(d, ws + decided.0);
  }

  lemma DecidedKeepsId(cfg: Config, r: Row, decision: Decision, token: Id, at: Instant)
    ensures DecidedRow(cfg, r, decision, token, at).id == r.id
  {
  }

  // ---------------------------------------------------------------- step-up

  /** Only an intent awaiting it is stepped up, and then policy is asked again, for the stored
      action, at strong assurance. */
  ghost predicate SteppedUpRightly(cfg: Config, w: World, w': World, op: Op)
    requires op.StepUpOp? && op.id in w.d.rows
  {
    var r, memory, reply := w.d.rows[op.id], MemoryOf(cfg, w, PrincipalOf(op.ctx)), EffectIn(cfg, w, op).reply;
    && NothingPaid(cfg, w, w', PrincipalOf(op.ctx))
    && (r.state != AwaitingStepUp ==> w'.d == w.d && Tells(cfg, reply, r, Decided(Deny)))
    && (r.state == AwaitingStepUp ==>
          DecidedRightly(cfg, w.d, w'.d, r.(context := r.context.(assurance := Strong), state := Validated),
                         memory.paidBefore, op,
                         [SteppedUp, Transition(AwaitingStepUp, StepUp, Validated, None, None)], reply))
  }

  lemma StepUpEnters(r: Row)
    requires r.state == AwaitingStepUp
    ensures var ws := StepUpHead(r) + Move(Strengthened(r), StepUp);
      Quiet(ws, r.id) && Entered(ws) == [SteppedUp, Transition(AwaitingStepUp, StepUp, Validated, None, None)]
  {
    var head := StepUpHead(r);
    assert head == [head[0]] + [head[1]];
    EnteredConcat([head[0]], [head[1]]);
    OneEnters(head[0]);
    OneEnters(head[1]);
    MoveEnters(Strengthened(r), StepUp);
    EnteredConcat(head, Move(Strengthened(r), StepUp));
  }

  lemma StepUpIsRight(cfg: Config, w: World, op: Op)
    requires Inv(cfg, None, w) && op.StepUpOp? && Refers(w.d, op)
    ensures SteppedUpRightly(cfg, w, Next(cfg, w, Done(op)), op)
  {
    hide Inv, Decide, DecidedRightly, Tells, StatusOf, ApplyAll;
    var r, memory := w.d.rows[op.id], MemoryOf(cfg, w, PrincipalOf(op.ctx));
    RowIsSound(cfg, w, op.id);
    if r.state == AwaitingStepUp {
      var validated := Moved(Strengthened(r), StepUp);
      StepUpEnters(r);
      DecisionIsRight(cfg, w.d, validated, memory, op, StepUpHead(r) + Move(Strengthened(r), StepUp));
    } else {
      StatusTells(cfg, r, true);
      NoWrites(w.d);
    }
  }

  lemma StepUpAnswers(cfg: Config, steps: seq<Step>, op: Op)
    requires ValidRun(cfg, None, steps + [Done(op)]) && op.StepUpOp? && Refers(Run(cfg, steps).d, op)
    ensures SteppedUpRightly(cfg, Run(cfg, steps), Run(cfg, steps + [Done(op)]), op)
  {
    DoneNext(cfg, steps, op);
    hide Run, ValidRun, Inv, SteppedUpRightly;
    StepUpIsRight(cfg, Run(cfg, steps), op);
  }

  // ---------------------------------------------------------------- propose

  /** What the one account lacks for the amount. */
  function Lacking(accounts: map<string, int>, amount: Money): seq<Precondition> {
    if "checking_001" !in accounts then [SourceAccount]
    else if accounts["checking_001"] < amount then [SufficientFunds]
    else []
  }

  function Heard(op: Op, matches: seq<Contact>): seq<Entry>
    requires op.ProposeOp?
  {
    [Request(op.ctx.customer, op.ctx.session, op.ctx.channel, op.text), Interpreted(op.proposed),
     Resolution(op.proposed.recipient, Ids(matches))]
  }

  /** The action built for the one contact found: the amount proposed, from the one account. */
  function CanonicalRow(op: Op, recipient: Id, state: State): Row
    requires op.ProposeOp?
  {
    Row(op.id, CreatePix("checking_001", recipient, op.proposed.amount), op.ctx, state, None, None, None, None, None,
        None)
  }

  /** With one match, exactly, the canonical action is built and stored: refused when the
      account lacks, else as policy decides. With none or several nothing is stored. */
  ghost predicate ProposedRightly(cfg: Config, w: World, w': World, op: Op)
    requires op.ProposeOp?
  {
    var memory, reply := MemoryOf(cfg, w, PrincipalOf(op.ctx)), EffectIn(cfg, w, op).reply;
    && NothingPaid(cfg, w, w', PrincipalOf(op.ctx))
    && exists matches: seq<Contact> ::
         && MatchesAre(cfg.contacts, op.proposed.recipient, matches)
         && if |matches| == 1 then
              CanonicallyRight(cfg, w.d, w'.d, memory, op, matches[0].id, Heard(op, matches), reply)
            else
              && w'.d.rows == w.d.rows && w'.d.ledger == w.d.ledger + Stamped(op.id, Heard(op, matches))
              && reply == Outcome(Decided(RequireMoreInfo), Some(op.id), None, Candidates(Ids(matches)))
  }

  ghost predicate CanonicallyRight(cfg: Config, d: Durable, d': Durable, memory: BankMemory, op: Op, recipient: Id,
                                   heard: seq<Entry>, reply: Reply)
    requires op.ProposeOp?
  {
    var lacking, action := Lacking(memory.accounts, op.proposed.amount), CanonicalRow(op, recipient, Created).action;
    && (lacking != [] ==>
          && reply == Outcome(Decided(Deny), Some(op.id), None, Missing(lacking))
          && Leaves(d, d', CanonicalRow(op, recipient, Cancelled),
                    heard + [CanonicalAction(action), Transition(Created, Reject, Cancelled, None, None)]))
    && (lacking == [] ==>
          DecidedRightly(cfg, d, d', CanonicalRow(op, recipient, Validated), memory.paidBefore, op,
                         heard + [CanonicalAction(action), Transition(Created, Validate, Validated, None, None)],
                         reply))
  }

  lemma HeardEnters(op: Op, matches: seq<Contact>)
    requires op.ProposeOp?
    ensures var head := ProposeHead(op.ctx, op.proposed, op.text, op.id, matches);
      Quiet(head, op.id) && Entered(head) == Heard(op, matches)
  {
    var head := ProposeHead(op.ctx, op.proposed, op.text, op.id, matches);
    assert head == [head[0]] + [head[1]] + [head[2]];
    EnteredConcat([head[0]], [head[1]]);
    EnteredConcat([head[0]] + [head[1]], [head[2]]);
    OneEnters(head[0]);
    OneEnters(head[1]);
    OneEnters(head[2]);
  }

  /** The writes from the canonical action to the end of the precondition check. */
  function CreatedScript(row: Row, hop: Hop): seq<Write>
    requires CanMove(row, hop)
  {
    [Put(row), Append(row.id, CanonicalAction(row.action))] + Move(row, hop)
  }

  lemma CreatedEnters(row: Row, hop: Hop)
    requires row.state == Created && hop in {Validate, Reject}
    ensures var ws := CreatedScript(row, hop);
      && Quiet(ws, row.id) && ws[|ws| - 1] == Put(Moved(row, hop))
      && Entered(ws) == [CanonicalAction(row.action), Transition(Created, hop, Moved(row, hop).state, None, None)]
  {
    var created := [Put(row), Append(row.id, CanonicalAction(row.action))];
    assert created == [created[0]] + [created[1]];
    EnteredConcat([created[0]], [created[1]]);
    OneEnters(created[0]);
    OneEnters(created[1]);
    MoveEnters(row, hop);
    EnteredConcat(created, Move(row, hop));
  }

  lemma CanonicalIsRight(cfg: Config, d: Durable, memory: BankMemory, op: Op, recipient: Id, head: seq<Write>)
    requires op.ProposeOp? && HasContact(cfg.contacts, recipient) && Quiet(head, op.id)
    ensures var row := Proposed(op.ctx, op.proposed, op.id, recipient);
      var body := ProposeBody(cfg, row, memory, op.token, op.t1, op.t2);
      && CanonicallyRight(cfg, d, ApplyAll(d, head + body.0), memory, op, recipient, Entered(head), body.1)
      && ApplyAll(d, head + body.0).book == d.book
  {
    hide HasContact, Decide, DecidedRightly, Leaves, ApplyAll;
    var row := CanonicalRow(op, recipient, Created);
    assert row == Proposed(op.ctx, op.proposed, op.id, recipient);
    assert MissingPreconditions(cfg, memory, row.action) == Lacking(memory.accounts, op.proposed.amount);
    if Lacking(memory.accounts, op.proposed.amount) != [] {
      var ws := CreatedScript(row, Reject);
      CreatedEnters(row, Reject);
      EnteredConcat(head, ws);
      ScriptEnds(d, head + ws, Moved(row, Reject));
      FilesNothing(d, head + ws);
    } else {
      var validated, ws := Moved(row, Validate), CreatedScript(row, Validate);
      var decided := Decide(cfg, validated, memory, op.token, op.t1, op.t2);
      CreatedEnters(row, Validate);
      EnteredConcat(head, ws);
      DecisionIsRight(cfg, d, validated, memory, op, head + ws);
      assert head + ws + decided.0 == head + (ws + decided.0);
    }
  }

  lemma ProposalIsRight(cfg: Config, w: World, op: Op)
    requires op.ProposeOp?
    ensures ProposedRightly(cfg, w, Next(cfg, w, Done(op)), op)
  {
    hide FindContacts, MatchesAre, ProposeBody, CanonicallyRight, HasContact, ApplyAll, Heard, ProposeHead, Stamped;
    var memory, matches := MemoryOf(cfg, w, PrincipalOf(op.ctx)), FindContacts(cfg.contacts, op.proposed.recipient);
    var head := ProposeHead(op.ctx, op.proposed, op.text, op.id, matches);
    FindContactsMeans(cfg.contacts, op.proposed.recipient);
    HeardEnters(op, matches);
    if |matches| == 1 {
      MatchesAreListed(cfg.contacts, op.proposed.recipient, matches);
      CanonicalIsRight(cfg, w.d, memory, op, matches[0].id, head);
    } else {
      LedgerGrows(w.d, head, op.id);
      HeadAppends(w.d, op, matches);
    }
  }

  lemma HeadAppends(d: Durable, op: Op, matches: seq<Contact>)
    requires op.ProposeOp?
    ensures var d' := ApplyAll(d, ProposeHead(op.ctx, op.proposed, op.text, op.id, matches));
      d'.rows == d.rows && d'.book == d.book
  {
    AppendsKeepRows(d, ProposeHead(op.ctx, op.proposed, op.text, op.id, matches));
  }

  lemma MatchesAreListed(contacts: seq<Contact>, needle: string, matches: seq<Contact>)
    requires MatchesAre(contacts, needle, matches)
    ensures forall c | c in matches :: HasContact(contacts, c.id)
  {
    hide IsIn;
    var places: seq<nat> :| PlacesOf(contacts, needle, matches, places);
    forall c | c in matches
      ensures HasContact(contacts, c.id)
    {
      var i :| 0 <= i < |matches| && matches[i] == c;
      assert contacts[places[i]] == c;
    }
  }

  lemma ProposeAnswers(cfg: Config, steps: seq<Step>, op: Op)
    requires ValidRun(cfg, None, steps + [Done(op)]) && op.ProposeOp?
    ensures ProposedRightly(cfg, Run(cfg, steps), Run(cfg, steps + [Done(op)]), op)
  {
    DoneNext(cfg, steps, op);
    hide Run, ValidRun, Inv, ProposedRightly;
    ProposalIsRight(cfg, Run(cfg, steps), op);
  }

  // ---------------------------------------------------------------- sweep

  lemma StampedSnoc(ledger: seq<Event>, id: Id, entries: seq<Entry>, e: Entry)
    ensures ledger + Stamped(id, entries + [e]) == ledger + Stamped(id, entries) + [Event(id, e)]
  {
  }

  lemma {:induction false} TrailOfStamped(ledger: seq<Event>, id: Id, entries: seq<Entry>)
    ensures Trail(ledger + Stamped(id, entries), id) == Trail(ledger, id) + entries
    decreases |entries|
  {
    if entries == [] {
      assert ledger + Stamped(id, entries) == ledger;
    } else {
      var n := |entries| - 1;
      assert entries == entries[..n] + [entries[n]];
      TrailOfStamped(ledger, id, entries[..n]);
      StampedSnoc(ledger, id, entries[..n], entries[n]);
      hide Stamped, Trail;
      TrailAppend(ledger + Stamped(id, entries[..n]), Event(id, entries[n]), id);
    }
  }

  lemma {:induction false} TrailElsewhere(d: Durable, ws: seq<Write>, other: Id, id: Id)
    requires AllAbout(ws, other) && other != id
    ensures Trail(ApplyAll(d, ws).ledger, id) == Trail(d.ledger, id)
    decreases |ws|
  {
    if ws != [] {
      assert ws[0] in ws && forall x | x in ws[1..] :: x in ws;
      if ws[0].Append? {
        TrailAppend(d.ledger, Event(ws[0].id, ws[0].entry), id);
      }
      TrailElsewhere(Apply(d, ws[0]), ws[1..], other, id);
    }
  }

  const SWEPT: seq<Entry> := [RestartSweep, Transition(Submitted, Timeout, Unknown, None, None)]

  lemma SweptRowEnters(r: Row)
    requires r.state == Submitted
    ensures AllAbout(SweepRow(r), r.id) && Entered(SweepRow(r)) == SWEPT
  {
    var head, move, last := [Append(r.id, RestartSweep)], Move(r, Timeout), [Put(Moved(r, Timeout))];
    MoveEnters(r, Timeout);
    OneEnters(head[0]);
    OneEnters(last[0]);
    EnteredConcat(head, move);
    EnteredConcat(head + move, last);
  }

  lemma {:induction false} SweptTrail(d: Durable, order: seq<Id>, rows: map<Id, Row>, id: Id)
    requires forall i | i in order :: i in rows && rows[i].id == i
    requires forall i, j | 0 <= i < j < |order| :: order[i] != order[j]
    ensures Trail(ApplyAll(d, SweepScript(order, rows)).ledger, id)
         == Trail(d.ledger, id) + if id in order && rows[id].state == Submitted then SWEPT else []
    decreases |order|
  {
    hide Trail, ApplyAll, SweepRow, Stamped;
    if order == [] {
      NoWrites(d);
    } else {
      var first, rest := order[0], order[1..];
      var head := if rows[first].state == Submitted then SweepRow(rows[first]) else [];
      assert forall i | i in rest :: i in order;
      assert first !in rest;
      ApplyAllConcat(d, head, SweepScript(rest, rows));
      SweptTrail(ApplyAll(d, head), rest, rows, id);
      if rows[first].state == Submitted {
        SweptRowEnters(rows[first]);
        if first == id {
          LedgerGrows(d, head, id);
          TrailOfStamped(d.ledger, id, SWEPT);
        } else {
          TrailElsewhere(d, head, first, id);
        }
      } else {
        NoWrites(d);
      }
    }
  }

  /** A sweep is on record in the trail of exactly the intents it moves. */
  lemma SweepIsRecorded(cfg: Config, steps: seq<Step>, id: Id)
    requires ValidRun(cfg, None, steps + [Done(SweepOp)])
    ensures var w, w' := Run(cfg, steps), Run(cfg, steps + [Done(SweepOp)]);
      var swept := id in w.d.rows && w.d.rows[id].state == Submitted;
      Trail(w'.d.ledger, id) == Trail(w.d.ledger, id)
        + if swept then [RestartSweep, Transition(Submitted, Timeout, Unknown, None, None)] else []
  {
    DoneNext(cfg, steps, SweepOp);
    hide Run, ValidRun, Trail, ApplyAll, SweepScript, Good, AuditOf;
    var w := Run(cfg, steps);
    forall i | i in w.d.order
      ensures i in w.d.rows && w.d.rows[i].id == i
    {
      RowIsNamed(cfg, None, w, i);
    }
    SweptTrail(w.d, w.d.order, w.d.rows, id);
  }
}
