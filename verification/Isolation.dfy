/** Customers share the store, the ledger and the book, and do not show in each other's
    conversations (examples/banking/tools.py, `plane_for`). Deleting every operation of
    all other customers from a run leaves exactly one customer's part of the world. */
module Isolation {
  import opened Actions
  import opened Policy
  import opened Machine
  import opened Bank
  import opened Plane
  import opened Audit
  import opened Intents
  import opened Serial

  // ---------------------------------------------------------------- one customer's part

  /** The ids a customer opened, by the ledger's own request events. */
  function IdsOf(ledger: seq<Event>, c: string): set<Id> {
    set e | e in ledger && e.entry.Request? && e.entry.customer == c :: e.id
  }

  function FilterIds(order: seq<Id>, ids: set<Id>): seq<Id> {
    if order == [] then []
    else
      var last := order[|order| - 1];
      var before := FilterIds(order[..|order| - 1], ids);
      if last in ids then before + [last] else before
  }

  function FilterEvents(ledger: seq<Event>, ids: set<Id>): seq<Event> {
    if ledger == [] then []
    else
      var last := ledger[|ledger| - 1];
      var before := FilterEvents(ledger[..|ledger| - 1], ids);
      if last.id in ids then before + [last] else before
  }

  function Only(ws: seq<Write>, ids: set<Id>): seq<Write> {
    if ws == [] then []
    else if Subject(ws[0]) in ids then [ws[0]] + Only(ws[1..], ids)
    else Only(ws[1..], ids)
  }

  function Restrict(d: Durable, ids: set<Id>): Durable {
    Durable(FilterIds(d.order, ids),
            map id | id in d.rows && id in ids :: d.rows[id],
            FilterEvents(d.ledger, ids),
            map id | id in d.book && id in ids :: d.book[id])
  }

  function Part(d: Durable, c: string): Durable {
    Restrict(d, IdsOf(d.ledger, c))
  }

  function PartMemories(memories: map<Principal, BankMemory>, c: string): map<Principal, BankMemory> {
    map p | p in memories && p.customer == c :: memories[p]
  }

  // ---------------------------------------------------------------- restriction and writes

  predicate OpensTrail(w: Write) {
    w.Append? && w.entry.Request?
  }

  lemma RestrictWrite(d: Durable, w: Write, ids: set<Id>)
    ensures Restrict(Apply(d, w), ids) == if Subject(w) in ids then Apply(Restrict(d, ids), w) else Restrict(d, ids)
  {
    match w
    case Append(id, entry) => RestrictAppend(d, id, entry, ids);
    case Put(row) => RestrictPut(d, row, ids);
    case File(id, receipt) => RestrictFile(d, id, receipt, ids);
  }

  lemma RestrictAppend(d: Durable, id: Id, entry: Entry, ids: set<Id>)
    ensures Restrict(Apply(d, Append(id, entry)), ids)
         == if id in ids then Apply(Restrict(d, ids), Append(id, entry)) else Restrict(d, ids)
  {
    assert (d.ledger + [Event(id, entry)])[..|d.ledger|] == d.ledger;
  }

  lemma RestrictPut(d: Durable, row: Row, ids: set<Id>)
    ensures Restrict(Apply(d, Put(row)), ids)
         == if row.id in ids then Apply(Restrict(d, ids), Put(row)) else Restrict(d, ids)
  {
    assert (d.order + [row.id])[..|d.order|] == d.order;
  }

  lemma RestrictFile(d: Durable, id: Id, receipt: Receipt, ids: set<Id>)
    ensures Restrict(Apply(d, File(id, receipt)), ids)
         == if id in ids then Apply(Restrict(d, ids), File(id, receipt)) else Restrict(d, ids)
  {
  }

  lemma IdsAfterAppend(ledger: seq<Event>, e: Event, c: string)
    ensures IdsOf(ledger + [e], c)
         == if e.entry.Request? && e.entry.customer == c then IdsOf(ledger, c) + {e.id} else IdsOf(ledger, c)
  {
    assert forall x :: x in ledger + [e] <==> x in ledger || x == e;
  }

  lemma {:induction false} RestrictRun(d: Durable, ws: seq<Write>, c: string)
    requires forall w | w in ws :: !OpensTrail(w)
    ensures IdsOf(ApplyAll(d, ws).ledger, c) == IdsOf(d.ledger, c)
    ensures Part(ApplyAll(d, ws), c) == ApplyAll(Part(d, c), Only(ws, IdsOf(d.ledger, c)))
    decreases |ws|
  {
    if ws != [] {
      var ids, w := IdsOf(d.ledger, c), ws[0];
      assert w in ws;
      assert forall x | x in ws[1..] :: x in ws;
      if w.Append? {
        IdsAfterAppend(d.ledger, Event(w.id, w.entry), c);
      }
      RestrictWrite(d, w, ids);
      RestrictRun(Apply(d, w), ws[1..], c);
      if Subject(w) in ids {
        assert ([w] + Only(ws[1..], ids))[1..] == Only(ws[1..], ids);
      }
    }
  }

  lemma {:induction false} OnlyAll(ws: seq<Write>, ids: set<Id>)
    requires forall w | w in ws :: Subject(w) in ids
    ensures Only(ws, ids) == ws
  {
    if ws != [] {
      assert ws[0] in ws;
      assert forall w | w in ws[1..] :: w in ws;
      OnlyAll(ws[1..], ids);
    }
  }

  lemma {:induction false} OnlyNone(ws: seq<Write>, ids: set<Id>)
    requires forall w | w in ws :: Subject(w) !in ids
    ensures Only(ws, ids) == []
  {
    if ws != [] {
      assert ws[0] in ws;
      assert forall w | w in ws[1..] :: w in ws;
      OnlyNone(ws[1..], ids);
    }
  }

  lemma {:induction false} OnlyConcat(ws: seq<Write>, vs: seq<Write>, ids: set<Id>)
    ensures Only(ws + vs, ids) == Only(ws, ids) + Only(vs, ids)
    decreases |ws|
  {
    if ws == [] {
      assert ws + vs == vs;
    } else {
      assert (ws + vs)[1..] == ws[1..] + vs;
      OnlyConcat(ws[1..], vs, ids);
    }
  }

  // ---------------------------------------------------------------- restriction and reads

  lemma {:induction false} TrailOfFiltered(ledger: seq<Event>, ids: set<Id>, id: Id)
    ensures Trail(FilterEvents(ledger, ids), id) == if id in ids then Trail(ledger, id) else []
  {
    if ledger != [] {
      var before, last := ledger[..|ledger| - 1], ledger[|ledger| - 1];
      TrailOfFiltered(before, ids, id);
      if last.id in ids {
        TrailAppend(FilterEvents(before, ids), last, id);
      }
    }
  }

  lemma {:induction false} TrailHolds(ledger: seq<Event>, id: Id, entry: Entry)
    ensures entry in Trail(ledger, id) <==> Event(id, entry) in ledger
  {
    if ledger != [] {
      var before, last := ledger[..|ledger| - 1], ledger[|ledger| - 1];
      TrailHolds(before, id, entry);
      assert ledger == before + [last];
    }
  }

  lemma {:induction false} OwnerIsInTrail(trail: seq<Entry>)
    ensures TrailOwner(trail).Some? ==>
      exists e | e in trail :: e.Request? && Principal(e.customer, e.session) == TrailOwner(trail).value
  {
    if trail != [] && !trail[0].Request? {
      OwnerIsInTrail(trail[1..]);
      if TrailOwner(trail).Some? {
        var e :| e in trail[1..] && e.Request? && Principal(e.customer, e.session) == TrailOwner(trail).value;
        assert e in trail;
      }
    } else if trail != [] {
      assert trail[0] in trail;
    }
  }

  /** A trail the customer owns is among the customer's ids. */
  lemma OwnedTrailIsMine(ledger: seq<Event>, id: Id, c: string)
    requires TrailOwner(Trail(ledger, id)).Some? && TrailOwner(Trail(ledger, id)).value.customer == c
    ensures id in IdsOf(ledger, c)
  {
    var trail := Trail(ledger, id);
    OwnerIsInTrail(trail);
    var e :| e in trail && e.Request? && Principal(e.customer, e.session) == TrailOwner(trail).value;
    TrailHolds(ledger, id, e);
    assert Event(id, e) in ledger;
  }

  /** In a reachable world a row is a customer's exactly when its trail is. */
  lemma RowsAreOwned(cfg: Config, w: World, id: Id, c: string)
    requires Inv(cfg, None, w) && id in w.d.rows
    ensures w.d.rows[id].context.customer == c <==> id in IdsOf(w.d.ledger, c)
  {
    var trail := Trail(w.d.ledger, id);
    assert Good(EnvAt(cfg, None, w.now), id, ViewOf(cfg.secret, w.d, id));
    OwnerIsFirstRequest(cfg.secret, trail);
    if w.d.rows[id].context.customer == c {
      OwnedTrailIsMine(w.d.ledger, id, c);
    }
    if id in IdsOf(w.d.ledger, c) {
      var e :| e in w.d.ledger && e.entry.Request? && e.entry.customer == c && e.id == id;
      assert e == Event(id, e.entry);
      TrailHolds(w.d.ledger, id, e.entry);
      OpenersMean(cfg.secret, trail, Principal(c, e.entry.session));
    }
  }

  lemma FreshIsNobodys(d: Durable, id: Id, c: string)
    requires FreshId(d, id)
    ensures id !in IdsOf(d.ledger, c)
  {
    if id in IdsOf(d.ledger, c) {
      var e :| e in d.ledger && e.entry.Request? && e.entry.customer == c && e.id == id;
      assert e == Event(id, e.entry);
      TrailHolds(d.ledger, id, e.entry);
      assert false;
    }
  }

  lemma {:induction false} FilterIdsMeans(order: seq<Id>, ids: set<Id>)
    ensures forall id :: id in FilterIds(order, ids) <==> id in order && id in ids
  {
    if order != [] {
      FilterIdsMeans(order[..|order| - 1], ids);
      assert order == order[..|order| - 1] + [order[|order| - 1]];
    }
  }

  /** Looking a token up in one customer's part finds that customer's row or nothing. */
  lemma TokenInPart(cfg: Config, w: World, c: string, token: Id)
    requires Inv(cfg, None, w)
    ensures var found := ByToken(w.d, token);
      ByToken(Part(w.d, c), token) == if found.Some? && found.value.context.customer == c then found else None
  {
    var ids, part, found := IdsOf(w.d.ledger, c), Part(w.d, c), ByToken(w.d, token);
    FilterIdsMeans(w.d.order, ids);
    ScanFinds(part.order, part.rows, token);
    var inPart := ByToken(part, token);
    if inPart.Some? {
      var i :| i in part.order && i in part.rows && part.rows[i] == inPart.value && part.rows[i].token == Some(token);
      ScanAgreesWithUniqueIndex(cfg, None, w, token, i);
      RowsAreOwned(cfg, w, i, c);
    } else if found.Some? {
      FoundRow(cfg, None, w, token);
      RowsAreOwned(cfg, w, found.value.id, c);
      assert found.value.id in w.d.order;
    }
  }

  /** The customer's own operation reads the same thing in the whole world and in the part. */
  lemma SameEffect(cfg: Config, w: World, w': World, c: string, op: Op)
    requires Inv(cfg, None, w) && !op.SweepOp? && op.ctx.customer == c
    requires w'.d == Part(w.d, c) && w'.memories == PartMemories(w.memories, c)
    ensures EffectIn(cfg, w', op) == EffectIn(cfg, w, op)
  {
    var p := PrincipalOn(op);
    assert MemoryOf(cfg, w', p) == MemoryOf(cfg, w, p);
    match op
    case StepUpOp(_, id, _, _, _) => SameRow(cfg, w, c, op.ctx, id);
    case ReconcileOp(_, id) => SameRow(cfg, w, c, op.ctx, id);
    case StatusOp(_, id) => SameRow(cfg, w, c, op.ctx, id);
    case ExplainOp(_, id) => SameTrail(w.d, c, op.ctx, id);
    case ConfirmOp(_, token, _, _, _) =>
      TokenInPart(cfg, w, c, token);
      if OwnedByToken(w.d, op.ctx, token).Some? {
        SameBooking(cfg, w, c, op.ctx, token);
      }
    case CancelOp(_, token) => TokenInPart(cfg, w, c, token);
    case _ =>
  }

  lemma SameRow(cfg: Config, w: World, c: string, ctx: Context, id: Id)
    requires Inv(cfg, None, w) && ctx.customer == c
    ensures OwnedByCustomer(Part(w.d, c), ctx, id) == OwnedByCustomer(w.d, ctx, id)
    ensures Owned(Part(w.d, c), ctx, id) == Owned(w.d, ctx, id)
    ensures OwnedByCustomer(w.d, ctx, id).Some?
        ==> Lookup(Part(w.d, c).book, w.d.rows[id].id) == Lookup(w.d.book, w.d.rows[id].id)
  {
    if id in w.d.rows {
      RowsAreOwned(cfg, w, id, c);
      RowIsNamed(cfg, None, w, id);
    }
  }

  lemma SameBooking(cfg: Config, w: World, c: string, ctx: Context, token: Id)
    requires Inv(cfg, None, w) && ctx.customer == c && OwnedByToken(w.d, ctx, token).Some?
    ensures var id := ByToken(w.d, token).value.id; Lookup(Part(w.d, c).book, id) == Lookup(w.d.book, id)
  {
    FoundRow(cfg, None, w, token);
    RowsAreOwned(cfg, w, ByToken(w.d, token).value.id, c);
  }

  lemma SameTrail(d: Durable, c: string, ctx: Context, id: Id)
    requires ctx.customer == c
    ensures forall memory :: Explain(Part(d, c), memory, ctx, id) == Explain(d, memory, ctx, id)
  {
    var trail := Trail(d.ledger, id);
    TrailOfFiltered(d.ledger, IdsOf(d.ledger, c), id);
    if TrailOwner(trail) == Some(PrincipalOf(ctx)) {
      OwnedTrailIsMine(d.ledger, id, c);
    }
  }

  // ---------------------------------------------------------------- one operation

  predicate ByCustomer(op: Op, c: string) {
    !op.SweepOp? && op.ctx.customer == c
  }

  /** The first write of an opening operation is its request; no other write is one. */
  lemma OpeningWrite(cfg: Config, w: World, op: Op)
    requires Opening(op)
    ensures var script := EffectIn(cfg, w, op).script;
      && |script| > 0 && script[0].Append? && script[0].id == op.id && OpensTrail(script[0])
      && script[0].entry.customer == op.ctx.customer
      && forall x | x in script[1..] :: !OpensTrail(x)
  {
    var memory := MemoryOf(cfg, w, PrincipalOn(op));
    if op.ProposeOp? {
      var matches := FindContacts(cfg.contacts, op.proposed.recipient);
      var head := ProposeHead(op.ctx, op.proposed, op.text, op.id, matches);
      if |matches| == 1 {
        var row := Proposed(op.ctx, op.proposed, op.id, matches[0].id);
        ProposeBodyOpensNothing(cfg, row, memory, op.token, op.t1, op.t2);
        var body := ProposeBody(cfg, row, memory, op.token, op.t1, op.t2).0;
        assert EffectIn(cfg, w, op).script[1..] == head[1..] + body;
      }
    }
  }

  lemma DecideOpensNothing(cfg: Config, r: Row, memory: BankMemory, token: Id, t1: Instant, t2: Instant)
    requires r.state == Validated
    ensures forall x | x in Decide(cfg, r, memory, token, t1, t2).0 :: !OpensTrail(x)
  {
  }

  lemma ProposeBodyOpensNothing(cfg: Config, row: Row, memory: BankMemory, token: Id, t1: Instant, t2: Instant)
    requires row.state == Created
    ensures forall x | x in ProposeBody(cfg, row, memory, token, t1, t2).0 :: !OpensTrail(x)
  {
    DecideOpensNothing(cfg, Moved(row, Validate), memory, token, t1, t2);
  }

  lemma StepUpOpensNothing(cfg: Config, r: Row, memory: BankMemory, token: Id, t1: Instant, t2: Instant)
    requires r.state == AwaitingStepUp
    ensures forall x | x in StepUpBody(cfg, r, memory, token, t1, t2).0 :: !OpensTrail(x)
  {
    DecideOpensNothing(cfg, Moved(Strengthened(r), StepUp), memory, token, t1, t2);
  }

  lemma ConsentOpensNothing(r: Row, ctx: Context, token: Id, at: Instant)
    requires r.state == AwaitingConfirmation
    ensures forall x | x in ConsentScript(r, ctx, token, at) :: !OpensTrail(x)
  {
  }

  lemma ConfirmOpensNothing(cfg: Config, d: Durable, memory: BankMemory, ctx: Context, r: Row, token: Id, t1: Instant,
                            t2: Instant, payment: Id)
    ensures forall x | x in ConfirmRow(cfg, d, memory, ctx, r, token, t1, t2, payment).script :: !OpensTrail(x)
  {
    if r.state == AwaitingConfirmation && !Expired(r, t1) && DigestMatches(cfg, r) {
      ConsentOpensNothing(r, ctx, token, t2);
      ExecuteOpensNothing(SubmittedRow(r, ctx, t2), BankCall(cfg, d, memory, SubmittedRow(r, ctx, t2), payment));
    }
  }

  lemma ExecuteOpensNothing(r: Row, effect: PixEffect)
    requires r.state == Submitted
    ensures forall x | x in ExecuteScript(r, effect) :: !OpensTrail(x)
  {
  }

  lemma {:induction false} SweepOpensNothing(order: seq<Id>, rows: map<Id, Row>)
    ensures forall x | x in SweepScript(order, rows) :: !OpensTrail(x)
  {
    if order != [] {
      SweepOpensNothing(order[1..], rows);
    }
  }

  lemma OthersOpenNothing(cfg: Config, w: World, op: Op)
    requires !Opening(op)
    ensures forall x | x in EffectIn(cfg, w, op).script :: !OpensTrail(x)
  {
    var memory := MemoryOf(cfg, w, PrincipalOn(op));
    match op
    case StepUpOp(ctx, id, token, t1, t2) =>
      if id in w.d.rows && w.d.rows[id].state == AwaitingStepUp {
        StepUpOpensNothing(cfg, w.d.rows[id], memory, token, t1, t2);
      }
    case ConfirmOp(ctx, token, t1, t2, payment) =>
      if ByToken(w.d, token).Some? {
        ConfirmOpensNothing(cfg, w.d, memory, ctx, ByToken(w.d, token).value, token, t1, t2, payment);
      }
    case SweepOp => SweepOpensNothing(w.d.order, w.d.rows);
    case ReconcileOp(_, id) =>
      if id in w.d.rows && w.d.rows[id].state == Unknown {
        ReconcileOpensNothing(w.d.rows[id], Lookup(w.d.book, w.d.rows[id].id));
      }
    case _ =>
  }

  lemma ReconcileOpensNothing(r: Row, receipt: Option<Receipt>)
    requires r.state == Unknown
    ensures forall x | x in ReconcileScript(r, receipt) :: !OpensTrail(x)
  {
  }

  /** Who an operation's subject belongs to: the caller, or nobody yet. */
  lemma SubjectIsCallers(cfg: Config, w: World, op: Op, c: string)
    requires Inv(cfg, None, w) && !op.SweepOp? && !Opening(op) && EffectIn(cfg, w, op).script != []
    ensures SubjectOf(w, op).Some? && (SubjectOf(w, op).value in IdsOf(w.d.ledger, c) <==> op.ctx.customer == c)
  {
    if op.ConfirmOp? || op.CancelOp? {
      FoundRow(cfg, None, w, op.token);
      RowsAreOwned(cfg, w, ByToken(w.d, op.token).value.id, c);
    } else {
      RowsAreOwned(cfg, w, op.id, c);
    }
  }

  /** What any prefix of an operation's writes leaves of a customer's part: the same
      writes, if the operation is the customer's, and otherwise nothing. */
  lemma PrefixOnPart(cfg: Config, w: World, op: Op, k: nat, c: string)
    requires Inv(cfg, None, w) && Allowed(None, w, Done(op)) && !op.SweepOp?
    requires k <= |EffectIn(cfg, w, op).script|
    ensures var ws := EffectIn(cfg, w, op).script[..k];
      Part(ApplyAll(w.d, ws), c) == if op.ctx.customer == c then ApplyAll(Part(w.d, c), ws) else Part(w.d, c)
  {
    OneSubject(cfg, None, w, op);
    if Opening(op) {
      if k > 0 {
        OpeningOnPart(cfg, w, op, k, c);
      }
    } else {
      var script := EffectIn(cfg, w, op).script;
      OthersOpenNothing(cfg, w, op);
      assert forall x | x in script[..k] :: x in script;
      RestrictRun(w.d, script[..k], c);
      if script != [] {
        SubjectIsCallers(cfg, w, op, c);
        if op.ctx.customer == c {
          OnlyAll(script[..k], IdsOf(w.d.ledger, c));
        } else {
          OnlyNone(script[..k], IdsOf(w.d.ledger, c));
        }
      }
    }
  }

  lemma FilterGrows(d: Durable, id: Id, ids: set<Id>)
    requires FreshId(d, id)
    ensures Restrict(d, ids + {id}) == Restrict(d, ids)
    requires Ordered(d)
  {
    FilterEventsGrows(d.ledger, id, ids);
    FilterIdsGrows(d.order, id, ids);
  }

  lemma {:induction false} FilterEventsGrows(ledger: seq<Event>, id: Id, ids: set<Id>)
    requires Trail(ledger, id) == []
    ensures FilterEvents(ledger, ids + {id}) == FilterEvents(ledger, ids)
  {
    if ledger != [] {
      FilterEventsGrows(ledger[..|ledger| - 1], id, ids);
    }
  }

  lemma {:induction false} FilterIdsGrows(order: seq<Id>, id: Id, ids: set<Id>)
    requires id !in order
    ensures FilterIds(order, ids + {id}) == FilterIds(order, ids)
  {
    if order != [] {
      FilterIdsGrows(order[..|order| - 1], id, ids);
    }
  }

  /** The request event of a fresh trail adds the id to the caller's part, and to no other. */
  lemma RequestOnPart(d: Durable, w: Write, c: string)
    requires Ordered(d) && OpensTrail(w) && FreshId(d, w.id)
    ensures var d' := Apply(d, w);
      && (w.id in IdsOf(d'.ledger, c) <==> w.entry.customer == c)
      && Part(d', c) == if w.entry.customer == c then Apply(Part(d, c), w) else Part(d, c)
  {
    var ids := IdsOf(d.ledger, c);
    FreshIsNobodys(d, w.id, c);
    IdsAfterAppend(d.ledger, Event(w.id, w.entry), c);
    if w.entry.customer == c {
      RestrictWrite(d, w, ids + {w.id});
      FilterGrows(d, w.id, ids);
    } else {
      RestrictWrite(d, w, ids);
    }
  }

  /** A request on a fresh trail and what follows it about the same id. */
  lemma OpenedRun(d: Durable, w: Write, rest: seq<Write>, c: string)
    requires Ordered(d) && OpensTrail(w) && FreshId(d, w.id)
    requires AllAbout(rest, w.id) && forall x | x in rest :: !OpensTrail(x)
    ensures Part(ApplyAll(Apply(d, w), rest), c)
         == if w.entry.customer == c then ApplyAll(Apply(Part(d, c), w), rest) else Part(d, c)
  {
    var d' := Apply(d, w);
    RequestOnPart(d, w, c);
    RestrictRun(d', rest, c);
    if w.entry.customer == c {
      OnlyAll(rest, IdsOf(d'.ledger, c));
    } else {
      OnlyNone(rest, IdsOf(d'.ledger, c));
    }
  }

  lemma OpeningOnPart(cfg: Config, w: World, op: Op, k: nat, c: string)
    requires Inv(cfg, None, w) && Allowed(None, w, Done(op)) && Opening(op)
    requires 0 < k <= |EffectIn(cfg, w, op).script|
    requires AllAbout(EffectIn(cfg, w, op).script, op.id)
    ensures var ws := EffectIn(cfg, w, op).script[..k];
      Part(ApplyAll(w.d, ws), c) == if op.ctx.customer == c then ApplyAll(Part(w.d, c), ws) else Part(w.d, c)
  {
    var script := EffectIn(cfg, w, op).script;
    var ws := script[..k];
    OpeningWrite(cfg, w, op);
    assert forall x | x in ws[1..] :: x in script[1..] && x in script;
    OpenedRun(w.d, ws[0], ws[1..], c);
  }

  // ---------------------------------------------------------------- the sweep

  lemma {:induction false} SweepOnly(order: seq<Id>, rows: map<Id, Row>, part: map<Id, Row>, ids: set<Id>)
    requires forall i | i in order :: i in rows && rows[i].id == i
    requires part == map id | id in rows && id in ids :: rows[id]
    ensures Only(SweepScript(order, rows), ids) == SweepScript(FilterIds(order, ids), part)
  {
    if order != [] {
      var before, last := order[..|order| - 1], order[|order| - 1];
      assert order == before + [last];
      assert last in order;
      SweepOnly(before, rows, part, ids);
      SweepScriptSnoc(before, last, rows);
      OnlyConcat(SweepScript(before, rows), SweepTail(last, rows), ids);
      SweepTailOnly(last, rows, part, ids);
      if last in ids {
        SweepScriptSnoc(FilterIds(before, ids), last, part);
      }
    }
  }

  function SweepTail(last: Id, rows: map<Id, Row>): seq<Write> {
    if last in rows && rows[last].state == Submitted then SweepRow(rows[last]) else []
  }

  lemma SweepTailOnly(last: Id, rows: map<Id, Row>, part: map<Id, Row>, ids: set<Id>)
    requires last in rows && rows[last].id == last
    requires part == map id | id in rows && id in ids :: rows[id]
    ensures Only(SweepTail(last, rows), ids) == if last in ids then SweepTail(last, part) else []
  {
    if last in ids {
      OnlyAll(SweepTail(last, rows), ids);
    } else {
      OnlyNone(SweepTail(last, rows), ids);
    }
  }

  lemma {:induction false} SweepScriptSnoc(order: seq<Id>, last: Id, rows: map<Id, Row>)
    ensures SweepScript(order + [last], rows) == SweepScript(order, rows) + SweepTail(last, rows)
    decreases |order|
  {
    if order != [] {
      assert (order + [last])[1..] == order[1..] + [last];
      SweepScriptSnoc(order[1..], last, rows);
    } else {
      assert (order + [last])[1..] == [];
    }
  }

  /** A sweep stopped after `k` writes is, for one customer, that customer's sweep stopped
      after the writes among them that are about the customer's intents. */
  lemma SweepOnPart(cfg: Config, w: World, k: nat, c: string)
    requires Inv(cfg, None, w) && k <= |SweepScript(w.d.order, w.d.rows)|
    ensures var ids := IdsOf(w.d.ledger, c);
      var ws := SweepScript(w.d.order, w.d.rows);
      var mine := SweepScript(Part(w.d, c).order, Part(w.d, c).rows);
      var k' := |Only(ws[..k], ids)|;
      && k' <= |mine|
      && Part(ApplyAll(w.d, ws[..k]), c) == ApplyAll(Part(w.d, c), mine[..k'])
      && (k == |ws| ==> k' == |mine|)
  {
    hide SweepScript, ApplyAll, AllGood;
    var ids, ws := IdsOf(w.d.ledger, c), SweepScript(w.d.order, w.d.rows);
    forall i | i in w.d.order
      ensures w.d.rows[i].id == i
    {
      RowIsNamed(cfg, None, w, i);
    }
    SweepOnly(w.d.order, w.d.rows, Part(w.d, c).rows, ids);
    SweepOpensNothing(w.d.order, w.d.rows);
    assert forall x | x in ws[..k] :: x in ws;
    RestrictRun(w.d, ws[..k], c);
    OnlyConcat(ws[..k], ws[k..], ids);
    assert ws == ws[..k] + ws[k..];
    assert Only(ws, ids)[..|Only(ws[..k], ids)|] == Only(ws[..k], ids);
  }

  // ---------------------------------------------------------------- the erased run

  /** What is left of a step once other customers' operations are gone: a crash inside
      one of theirs is still a restart, and a crashed sweep stops at the same place in
      this customer's part of it. */
  function EraseStep(cfg: Config, w: World, s: Step, c: string): seq<Step> {
    match s
    case Done(op) => if op.SweepOp? || op.ctx.customer == c then [s] else []
    case Crashed(op, after) =>
      if op.SweepOp? then
        var ws := SweepScript(w.d.order, w.d.rows);
        [Crashed(op, |Only(ws[..CrashPoint(ws, after)], IdsOf(w.d.ledger, c))|)]
      else if op.ctx.customer == c then [s]
      else [Restart]
    case Restart => [s]
    case Tamper(id, _) => if id in IdsOf(w.d.ledger, c) then [s] else []
  }

  function Erase(cfg: Config, steps: seq<Step>, c: string): seq<Step> {
    if steps == [] then []
    else
      var before := steps[..|steps| - 1];
      Erase(cfg, before, c) + EraseStep(cfg, Run(cfg, before), steps[|steps| - 1], c)
  }

  /** The replies one step adds. */
  function ReplyOf(cfg: Config, w: World, s: Step, c: string): seq<Reply> {
    if s.Done? && ByCustomer(s.op, c) then [EffectIn(cfg, w, s.op).reply] else []
  }

  /** Every reply the customer's completed operations got, in order. */
  function Replies(cfg: Config, steps: seq<Step>, c: string): seq<Reply> {
    if steps == [] then []
    else
      var before, last := steps[..|steps| - 1], steps[|steps| - 1];
      Replies(cfg, before, c) + ReplyOf(cfg, Run(cfg, before), last, c)
  }

  ghost predicate IsPart(w': World, w: World, c: string) {
    w'.d == Part(w.d, c) && w'.memories == PartMemories(w.memories, c)
  }

  lemma StillFresh(cfg: Config, w: World, w': World, s: Step, c: string)
    requires IsPart(w', w, c) && Allowed(None, w, s)
    ensures Allowed(None, w', s)
  {
    if (s.Done? || s.Crashed?) && Opening(s.op) {
      TrailOfFiltered(w.d.ledger, IdsOf(w.d.ledger, c), s.op.id);
    }
  }

  lemma OwnStep(cfg: Config, w: World, w': World, s: Step, c: string)
    requires Inv(cfg, None, w) && Allowed(None, w, s) && IsPart(w', w, c)
    requires (s.Done? || s.Crashed?) && ByCustomer(s.op, c)
    ensures IsPart(Next(cfg, w', s), Next(cfg, w, s), c)
    ensures EffectIn(cfg, w', s.op) == EffectIn(cfg, w, s.op)
  {
    var op := s.op;
    SameEffect(cfg, w, w', c, op);
    var effect := EffectIn(cfg, w, op);
    var k := if s.Done? then |effect.script| else CrashPoint(effect.script, s.after);
    PrefixOnPart(cfg, w, op, k, c);
    assert effect.script[..|effect.script|] == effect.script;
    if s.Done? {
      assert PartMemories(w.memories[PrincipalOn(op) := effect.memory], c)
          == w'.memories[PrincipalOn(op) := effect.memory];
    }
  }

  lemma ForeignMemory(memories: map<Principal, BankMemory>, op: Op, memory: BankMemory, c: string)
    requires !op.SweepOp? && op.ctx.customer != c
    ensures PartMemories(Remembered(memories, op, memory), c) == PartMemories(memories, c)
    ensures PartMemories(map[], c) == map[]
  {
  }

  lemma ForeignStep(cfg: Config, w: World, s: Step, c: string)
    requires Inv(cfg, None, w) && Allowed(None, w, s)
    requires (s.Done? || s.Crashed?) && !s.op.SweepOp? && s.op.ctx.customer != c
    ensures Part(Next(cfg, w, s).d, c) == Part(w.d, c)
    ensures PartMemories(Next(cfg, w, s).memories, c) == if s.Crashed? then map[] else PartMemories(w.memories, c)
  {
    hide Inv, EffectIn, ApplyAll, Part, DrawsFreshIds, ReadsInOrder, PartMemories, Remembered;
    var effect := EffectIn(cfg, w, s.op);
    var k := if s.Done? then |effect.script| else CrashPoint(effect.script, s.after);
    PrefixOnPart(cfg, w, s.op, k, c);
    ForeignMemory(w.memories, s.op, effect.memory, c);
    assert effect.script[..|effect.script|] == effect.script;
  }

  lemma SweepDone(cfg: Config, w: World, w': World, c: string)
    requires Inv(cfg, None, w) && IsPart(w', w, c)
    ensures IsPart(Next(cfg, w', Done(SweepOp)), Next(cfg, w, Done(SweepOp)), c)
  {
    var ws, mine := SweepScript(w.d.order, w.d.rows), SweepScript(w'.d.order, w'.d.rows);
    SweepOnPart(cfg, w, |ws|, c);
    assert ws[..|ws|] == ws && mine[..|mine|] == mine;
    SweepNext(cfg, w, 0);
    SweepNext(cfg, w', 0);
  }

  lemma SweepCrashed(cfg: Config, w: World, w': World, after: nat, c: string)
    requires Inv(cfg, None, w) && IsPart(w', w, c)
    ensures var t := EraseStep(cfg, w, Crashed(SweepOp, after), c)[0];
      IsPart(Next(cfg, w', t), Next(cfg, w, Crashed(SweepOp, after)), c)
  {
    var ws := SweepScript(w.d.order, w.d.rows);
    var k := CrashPoint(ws, after);
    SweepOnPart(cfg, w, k, c);
    SweepNext(cfg, w, after);
    SweepNext(cfg, w', |Only(ws[..k], IdsOf(w.d.ledger, c))|);
  }

  lemma TamperOnPart(d: Durable, id: Id, action: CreatePix, c: string)
    ensures Part(Tampered(d, id, action), c)
         == if id in IdsOf(d.ledger, c) then Tampered(Part(d, c), id, action) else Part(d, c)
  {
    var ids, rows := IdsOf(d.ledger, c), Tampered(d, id, action).rows;
    if id in d.rows && id in ids {
      assert (map i | i in rows && i in ids :: rows[i]) == Part(d, c).rows[id := rows[id]];
    } else {
      assert (map i | i in rows && i in ids :: rows[i]) == Part(d, c).rows;
    }
  }

  lemma TamperStep(cfg: Config, w: World, w': World, id: Id, action: CreatePix, c: string)
    requires IsPart(w', w, c)
    ensures var mine := id in IdsOf(w.d.ledger, c);
      IsPart(if mine then Next(cfg, w', Tamper(id, action)) else w', Next(cfg, w, Tamper(id, action)), c)
  {
    TamperOnPart(w.d, id, action, c);
  }

  lemma EraseOneStep(cfg: Config, w: World, w': World, s: Step, c: string)
    requires Inv(cfg, None, w) && Allowed(None, w, s) && IsPart(w', w, c)
    ensures var erased := EraseStep(cfg, w, s, c);
      && |erased| <= 1
      && (erased == [] ==> IsPart(w', Next(cfg, w, s), c))
      && (erased != [] ==> Allowed(None, w', erased[0]) && IsPart(Next(cfg, w', erased[0]), Next(cfg, w, s), c))
  {
    match s
    case Restart =>
    case Tamper(id, action) => TamperStep(cfg, w, w', id, action, c);
    case Done(op) =>
      if op.SweepOp? {
        SweepDone(cfg, w, w', c);
      } else {
        EraseOpStep(cfg, w, w', s, c);
      }
    case Crashed(op, after) =>
      if op.SweepOp? {
        SweepCrashed(cfg, w, w', after, c);
      } else {
        EraseOpStep(cfg, w, w', s, c);
      }
  }

  lemma EraseOpStep(cfg: Config, w: World, w': World, s: Step, c: string)
    requires Inv(cfg, None, w) && Allowed(None, w, s) && IsPart(w', w, c)
    requires (s.Done? || s.Crashed?) && !s.op.SweepOp?
    ensures s.op.ctx.customer == c ==> Allowed(None, w', s) && IsPart(Next(cfg, w', s), Next(cfg, w, s), c)
    ensures s.op.ctx.customer != c ==> IsPart(if s.Crashed? then Next(cfg, w', Restart) else w', Next(cfg, w, s), c)
  {
    if s.op.ctx.customer == c {
      StillFresh(cfg, w, w', s, c);
      OwnStep(cfg, w, w', s, c);
    } else {
      ForeignStep(cfg, w, s, c);
    }
  }

  lemma SameReply(cfg: Config, w: World, w': World, s: Step, c: string)
    requires Inv(cfg, None, w) && IsPart(w', w, c)
    ensures var erased := EraseStep(cfg, w, s, c);
      ReplyOf(cfg, w, s, c) == if erased == [] then [] else ReplyOf(cfg, w', erased[0], c)
  {
    if s.Done? && ByCustomer(s.op, c) {
      SameEffect(cfg, w, w', c, s.op);
    }
  }

  /** Non-interference. Delete every operation of all other customers from a run: the run
      that is left is a valid run, ends with exactly this customer's rows, trails,
      bookings, balances and known recipients, and gives this customer's operations the
      very same replies, although store, ledger and book were shared throughout. */
  lemma {:induction false} OthersDoNotInterfere(cfg: Config, steps: seq<Step>, c: string)
    requires ValidRun(cfg, None, steps)
    ensures ValidRun(cfg, None, Erase(cfg, steps, c))
    ensures IsPart(Run(cfg, Erase(cfg, steps, c)), Run(cfg, steps), c)
    ensures Replies(cfg, Erase(cfg, steps, c), c) == Replies(cfg, steps, c)
  {
    if steps == [] {
      assert Part(EMPTY, c) == EMPTY;
    } else {
      var before, last := steps[..|steps| - 1], steps[|steps| - 1];
      OthersDoNotInterfere(cfg, before, c);
      EveryRunIsGood(cfg, None, before);
      var w, w' := Run(cfg, before), Run(cfg, Erase(cfg, before, c));
      EraseOneStep(cfg, w, w', last, c);
      SameReply(cfg, w, w', last, c);
      AppendErased(cfg, Erase(cfg, before, c), EraseStep(cfg, w, last, c), c);
    }
  }

  /** Appending at most one step to a run. */
  lemma AppendErased(cfg: Config, erased: seq<Step>, tail: seq<Step>, c: string)
    requires |tail| <= 1 && ValidRun(cfg, None, erased)
    ensures tail == [] ==> erased + tail == erased
    ensures tail != [] ==>
      && (Allowed(None, Run(cfg, erased), tail[0]) ==> ValidRun(cfg, None, erased + tail))
      && Run(cfg, erased + tail) == Next(cfg, Run(cfg, erased), tail[0])
      && Replies(cfg, erased + tail, c) == Replies(cfg, erased, c) + ReplyOf(cfg, Run(cfg, erased), tail[0], c)
  {
    if tail != [] {
      assert tail == [tail[0]];
      RunSnoc(cfg, None, erased, tail[0]);
      RepliesSnoc(cfg, erased, tail[0], c);
    }
  }

  lemma RepliesSnoc(cfg: Config, steps: seq<Step>, s: Step, c: string)
    ensures Replies(cfg, steps + [s], c) == Replies(cfg, steps, c) + ReplyOf(cfg, Run(cfg, steps), s, c)
  {
    assert (steps + [s])[..|steps|] == steps;
  }
}
