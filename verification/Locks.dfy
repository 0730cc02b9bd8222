/** What a lock on each intent would buy. Nothing in the source takes one: `PgStore` hands
    out copies (src/control_plane/pgstore.py). Where no worker starts on an intent another
    worker is still at, interleaving does not show: each intent's rows, events and booking
    are those of some serial run of operations on it, whole ones and ones cut short, with
    workers dying anywhere and stored actions rewritten. */
module Locks {
  import opened Actions
  import opened Machine
  import opened Bank
  import opened Plane
  import opened Audit
  import opened Intents
  import opened Workers
  import S = Serial
  import G = Guarantees
  import I = Isolation

  // ---------------------------------------------------------------- the lock

  /** A worker that begins plans about no intent another worker still has jobs for. */
  ghost predicate Free(cfg: Config, s: Shared, m: Tick) {
    m.Begin? && Possible(s, m) ==>
      forall id, w | w in s.workers && w != m.worker && Mentions(s.workers[w].todo, id) ::
        !Mentions(Plan(cfg, s.d, m.op, m.seen), id)
  }

  ghost predicate Locked(cfg: Config, ticks: seq<Tick>) {
    ticks != [] ==>
      var before := ticks[..|ticks| - 1];
      Locked(cfg, before) && Free(cfg, Interleave(cfg, before), ticks[|ticks| - 1])
  }

  // ---------------------------------------------------------------- serial runs with any balances

  /** A step of the serial system, taken with any balances and any people paid before: what
      a worker finds there is others' doing. */
  datatype FreeStep = FreeStep(memory: BankMemory, step: S.Step)

  function Caller(step: S.Step): Principal {
    if step.Done? || step.Crashed? then S.PrincipalOn(step.op) else Principal("", "")
  }

  function Lent(d: Durable, f: FreeStep): S.World {
    S.World(d, map[Caller(f.step) := f.memory], 0)
  }

  function FreeRun(cfg: Config, run: seq<FreeStep>): Durable {
    if run == [] then EMPTY
    else
      var last := run[|run| - 1];
      S.Next(cfg, Lent(FreeRun(cfg, run[..|run| - 1]), last), last.step).d
  }

  ghost predicate FreeValid(cfg: Config, run: seq<FreeStep>) {
    run != [] ==>
      var before, last := run[..|run| - 1], run[|run| - 1];
      FreeValid(cfg, before) && S.Allowed(None, Lent(FreeRun(cfg, before), last), last.step)
  }

  lemma FreeSnoc(cfg: Config, run: seq<FreeStep>, f: FreeStep)
    ensures FreeRun(cfg, run + [f]) == S.Next(cfg, Lent(FreeRun(cfg, run), f), f.step).d
    ensures FreeValid(cfg, run + [f])
       <==> FreeValid(cfg, run) && S.Allowed(None, Lent(FreeRun(cfg, run), f), f.step)
  {
    assert (run + [f])[..|run|] == run;
  }

  /** The serial invariant asks nothing of balances. */
  lemma {:induction false} FreeRunIsGood(cfg: Config, run: seq<FreeStep>)
    requires FreeValid(cfg, run)
    ensures S.Inv(cfg, None, S.World(FreeRun(cfg, run), map[], 0))
  {
    if run == [] {
      S.EveryRunIsGood(cfg, None, []);
    } else {
      var before, last := run[..|run| - 1], run[|run| - 1];
      FreeRunIsGood(cfg, before);
      SameInv(cfg, S.World(FreeRun(cfg, before), map[], 0), Lent(FreeRun(cfg, before), last));
      S.StepKeepsInv(cfg, None, Lent(FreeRun(cfg, before), last), last.step);
      SameInv(cfg, S.Next(cfg, Lent(FreeRun(cfg, before), last), last.step), S.World(FreeRun(cfg, run), map[], 0));
    }
  }

  lemma SameInv(cfg: Config, w: S.World, w': S.World)
    requires S.Inv(cfg, None, w) && w'.d == w.d
    ensures S.Inv(cfg, None, w')
  {
    assert S.EnvAt(cfg, None, w.now) == S.EnvAt(cfg, None, w'.now);
  }

  /** An operation as far as it got is one step of a run: done, or crashed there. */
  function AsFarAs(cfg: Config, d: Durable, memory: BankMemory, op: Op, done: seq<Write>): FreeStep {
    FreeStep(memory, if done == EffectOf(cfg, d, memory, op).script then S.Done(op) else S.Crashed(op, |done|))
  }

  lemma AsFarAsThat(cfg: Config, run: seq<FreeStep>, memory: BankMemory, op: Op, done: seq<Write>)
    requires FreeValid(cfg, run) && S.DrawsFreshIds(FreeRun(cfg, run), op)
    requires done <= EffectOf(cfg, FreeRun(cfg, run), memory, op).script
    ensures var more := run + [AsFarAs(cfg, FreeRun(cfg, run), memory, op, done)];
      FreeValid(cfg, more) && FreeRun(cfg, more) == ApplyAll(FreeRun(cfg, run), done)
  {
    hide FreeRun, FreeValid, EffectOf, ApplyAll, S.DrawsFreshIds;
    var f := AsFarAs(cfg, FreeRun(cfg, run), memory, op, done);
    FreeSnoc(cfg, run, f);
    assert EffectOf(cfg, FreeRun(cfg, run), memory, op).script[..|done|] == done;
  }

  // ---------------------------------------------------------------- one intent's part of the store

  function Own(d: Durable, id: Id): Durable {
    I.Restrict(d, {id})
  }

  /** The stored action rewritten since, and not yet overwritten by a save. */
  function Told(d: Durable, id: Id, told: Option<CreatePix>): Durable {
    if told.Some? then S.Tampered(d, id, told.value) else d
  }

  lemma ToldWrite(d: Durable, id: Id, told: Option<CreatePix>, w: Write)
    requires Subject(w) == id
    ensures Apply(Told(d, id, told), w) == Told(Apply(d, w), id, if w.Put? then None else told)
  {
    if w.Put? && told.Some? && id in d.rows {
      assert d.rows[id := d.rows[id].(action := told.value)][id := w.row] == d.rows[id := w.row];
    }
  }

  lemma ToldAgain(d: Durable, id: Id, told: Option<CreatePix>, action: CreatePix)
    ensures S.Tampered(Told(d, id, told), id, action) == Told(d, id, Some(action))
  {
    if told.Some? && id in d.rows {
      assert d.rows[id := d.rows[id].(action := told.value)][id := d.rows[id].(action := action)]
          == d.rows[id := d.rows[id].(action := action)];
    }
  }

  lemma OwnTampered(d: Durable, id: Id, i: Id, action: CreatePix)
    ensures Own(S.Tampered(d, i, action), id) == if i == id then S.Tampered(Own(d, id), id, action) else Own(d, id)
  {
  }

  lemma OwnReads(d: Durable, id: Id)
    ensures Lookup(Own(d, id).rows, id) == Lookup(d.rows, id) && Lookup(Own(d, id).book, id) == Lookup(d.book, id)
    ensures Own(d, id).rows.Keys <= {id} && Own(d, id).book.Keys <= {id}
  {
  }

  lemma OwnView(secret: string, d: Durable, id: Id)
    ensures ViewOf(secret, Own(d, id), id) == ViewOf(secret, d, id)
  {
    OwnReads(d, id);
    I.TrailOfFiltered(d.ledger, {id}, id);
  }

  lemma OwnToken(d: Durable, id: Id, token: Id)
    requires S.Ordered(d) && id in d.rows && d.rows[id].token == Some(token)
    ensures ByToken(Own(d, id), token) == Some(d.rows[id])
  {
    var own := Own(d, id);
    I.FilterIdsMeans(d.order, {id});
    S.ScanFinds(own.order, own.rows, token);
    assert id in own.order && id in own.rows && own.rows[id].token == Some(token);
  }

  // ---------------------------------------------------------------- the story of one intent

  /** Somebody is at the intent: how far he got, with the balances that make his script come
      out as it does, and the action as rewritten under him. */
  datatype Busy = Busy(worker: nat, op: Op, memory: BankMemory, done: seq<Write>, told: Option<CreatePix>)

  /** The operations so far, each as far as it got, and the one under way. */
  datatype Story = Story(run: seq<FreeStep>, busy: Option<Busy>)

  function Script(cfg: Config, d: Durable, busy: Busy): seq<Write> {
    EffectOf(cfg, d, busy.memory, busy.op).script
  }

  predicate Plain(todo: seq<Job>) {
    forall i | 0 <= i < |todo| :: todo[i].Do?
  }

  function Writes(todo: seq<Job>): seq<Write>
    requires Plain(todo)
  {
    seq(|todo|, i requires 0 <= i < |todo| => todo[i].write)
  }

  /** Only durable writes left: those about the intent complete the script. */
  ghost predicate WritesAhead(cfg: Config, id: Id, d: Durable, busy: Busy, todo: seq<Job>) {
    Plain(todo) && busy.done + I.Only(Writes(todo), {id}) == Script(cfg, d, busy)
  }

  function SubmittedOn(cfg: Config, d: Durable, op: Op): InFlight
    requires Accepted(cfg, d, op)
  {
    SubmittedRow(ByToken(d, op.token).value, op.ctx, op.t2)
  }

  function ConsentOn(cfg: Config, d: Durable, op: Op): seq<Write>
    requires Accepted(cfg, d, op)
  {
    ConsentScript(ByToken(d, op.token).value, op.ctx, op.token, op.t2)
  }

  function ReceiptOn(cfg: Config, d: Durable, op: Op): Receipt
    requires Accepted(cfg, d, op)
  {
    var r := SubmittedOn(cfg, d, op);
    Receipt(op.payment, r.action.amount, r.action.recipient)
  }

  /** Where a payment stands that is not booked yet, once its account was found good for it. */
  ghost predicate PaymentAhead(cfg: Config, id: Id, d: Durable, busy: Busy, todo: seq<Job>)
    requires Accepted(cfg, d, busy.op)
  {
    var op := busy.op;
    var r, consent, receipt := SubmittedOn(cfg, d, op), ConsentOn(cfg, d, op), ReceiptOn(cfg, d, op);
    && Refusal(cfg.contacts, busy.memory, r.action).None?
    && (|| (busy.done == consent && todo == [Debit(r, op.payment)])
        || (busy.done == consent && todo == [Do(File(id, receipt)), Reread(r, receipt)])
        || (busy.done == consent + [File(id, receipt)] && todo == [Reread(r, receipt)]))
  }

  /** Consent first, then the bank call; what it answers decides the rest of the script. */
  ghost predicate CallAhead(cfg: Config, id: Id, d: Durable, busy: Busy, todo: seq<Job>) {
    && Accepted(cfg, d, busy.op) && ByToken(d, busy.op.token).value.id == id
    && var op, consent := busy.op, ConsentOn(cfg, d, busy.op);
      || (busy.done <= consent
          && todo == Dos(consent[|busy.done|..]) + [Call(SubmittedOn(cfg, d, op), op.payment)])
      || (id !in d.book && busy.done == consent && todo == [Check(SubmittedOn(cfg, d, op), op.payment)])
      || (id !in d.book && PaymentAhead(cfg, id, d, busy, todo))
  }

  /** The reconciliation query comes before anything is written. */
  ghost predicate QuestionAhead(cfg: Config, id: Id, d: Durable, busy: Busy, todo: seq<Job>) {
    && busy.done == [] && busy.op.ReconcileOp? && busy.op.id == id
    && OwnedByCustomer(d, busy.op.ctx, id).Some? && d.rows[id].id == id && d.rows[id].state == Unknown
    && todo == [AskBook(d.rows[id])]
  }

  ghost predicate Ahead(cfg: Config, id: Id, d: Durable, busy: Busy, todo: seq<Job>) {
    || WritesAhead(cfg, id, d, busy, todo)
    || CallAhead(cfg, id, d, busy, todo)
    || QuestionAhead(cfg, id, d, busy, todo)
  }

  ghost predicate Others(s: Shared, worker: nat, id: Id) {
    forall w | w in s.workers && w != worker :: !Mentions(s.workers[w].todo, id)
  }

  ghost predicate Nobody(s: Shared, id: Id) {
    forall w | w in s.workers :: !Mentions(s.workers[w].todo, id)
  }

  ghost predicate Underway(cfg: Config, s: Shared, id: Id, d: Durable, busy: Busy) {
    && busy.worker in s.workers && Others(s, busy.worker, id)
    && S.DrawsFreshIds(d, busy.op)
    && Ahead(cfg, id, d, busy, s.workers[busy.worker].todo)
    && Own(s.d, id) == Told(ApplyAll(d, busy.done), id, busy.told)
  }

  /** The story accounts for the intent's part of the store, and for whoever is at it. */
  ghost predicate Tells(cfg: Config, s: Shared, id: Id, story: Story) {
    && FreeValid(cfg, story.run)
    && (id !in s.used ==> Own(s.d, id) == EMPTY)
    && match story.busy
       case None => Nobody(s, id) && Own(s.d, id) == FreeRun(cfg, story.run)
       case Some(busy) => Underway(cfg, s, id, FreeRun(cfg, story.run), busy)
  }

  // ---------------------------------------------------------------- what is done is a part of a script

  lemma AcceptedScript(cfg: Config, d: Durable, memory: BankMemory, op: Op)
    requires Accepted(cfg, d, op)
    ensures var r := SubmittedOn(cfg, d, op);
      EffectOf(cfg, d, memory, op).script
      == ConsentOn(cfg, d, op) + ExecuteScript(r, BankCall(cfg, d, memory, r, op.payment))
  {
    hide ConsentScript, ExecuteScript, StatusOf, BankCall;
  }

  /** The three things the bank can do, and the scripts they make. */
  lemma BookedScript(cfg: Config, d: Durable, memory: BankMemory, op: Op, id: Id)
    requires Accepted(cfg, d, op) && ByToken(d, op.token).value.id == id && id in d.book
    ensures EffectOf(cfg, d, memory, op).script
         == ConsentOn(cfg, d, op) + SettleScript(SubmittedOn(cfg, d, op), Paid(d.book[id]))
  {
    hide EffectOf, ConsentScript, SettleScript;
    AcceptedScript(cfg, d, memory, op);
    var r := SubmittedOn(cfg, d, op);
    assert FileScript(r.id, None) + SettleScript(r, Paid(d.book[id])) == SettleScript(r, Paid(d.book[id]));
  }

  lemma RefusedScript(cfg: Config, d: Durable, memory: BankMemory, op: Op, id: Id)
    requires Accepted(cfg, d, op) && ByToken(d, op.token).value.id == id && id !in d.book
    requires Refusal(cfg.contacts, memory, SubmittedOn(cfg, d, op).action).Some?
    ensures var r := SubmittedOn(cfg, d, op);
      EffectOf(cfg, d, memory, op).script
      == ConsentOn(cfg, d, op) + SettleScript(r, Refused(Refusal(cfg.contacts, memory, r.action).value))
  {
    hide EffectOf, ConsentScript, SettleScript, Refusal;
    AcceptedScript(cfg, d, memory, op);
    var r := SubmittedOn(cfg, d, op);
    var settle := SettleScript(r, Refused(Refusal(cfg.contacts, memory, r.action).value));
    assert FileScript(r.id, None) + settle == settle;
  }

  function LastAnswer(cfg: Config, d: Durable, op: Op): Answer
    requires Accepted(cfg, d, op)
  {
    if TimesOut(SubmittedOn(cfg, d, op).action.amount) then NoAnswer else Paid(ReceiptOn(cfg, d, op))
  }

  lemma PaidScript(cfg: Config, d: Durable, memory: BankMemory, op: Op, id: Id)
    requires Accepted(cfg, d, op) && ByToken(d, op.token).value.id == id && id !in d.book
    requires Refusal(cfg.contacts, memory, SubmittedOn(cfg, d, op).action).None?
    ensures var r := SubmittedOn(cfg, d, op);
      EffectOf(cfg, d, memory, op).script
      == ConsentOn(cfg, d, op) + [File(id, ReceiptOn(cfg, d, op))] + SettleScript(r, LastAnswer(cfg, d, op))
  {
    hide EffectOf, ConsentScript, SettleScript, Refusal;
    AcceptedScript(cfg, d, memory, op);
    var consent, filed := ConsentOn(cfg, d, op), [File(id, ReceiptOn(cfg, d, op))];
    var settle := SettleScript(SubmittedOn(cfg, d, op), LastAnswer(cfg, d, op));
    assert consent + (filed + settle) == consent + filed + settle;
  }

  lemma DoneIsPrefix(cfg: Config, id: Id, d: Durable, busy: Busy, todo: seq<Job>)
    requires Ahead(cfg, id, d, busy, todo)
    ensures busy.done <= Script(cfg, d, busy)
  {
    hide EffectOf, ConsentScript, SettleScript, ExecuteScript, Refusal, BankCall;
    if CallAhead(cfg, id, d, busy, todo) {
      AcceptedScript(cfg, d, busy.memory, busy.op);
      if id !in d.book && PaymentAhead(cfg, id, d, busy, todo) {
        PaidScript(cfg, d, busy.memory, busy.op, id);
      }
    }
  }

  /** When nobody is at the intent any more, the operation under way is one step of the run. */
  lemma Closes(cfg: Config, s: Shared, id: Id, story: Story) returns (closed: Story)
    requires Tells(cfg, s, id, story) && (story.busy.Some? ==> Others(s, story.busy.value.worker, id))
    ensures closed.busy.None? && FreeValid(cfg, closed.run) && Own(s.d, id) == FreeRun(cfg, closed.run)
  {
    hide FreeRun, FreeValid, Ahead, Mentions, Own, ApplyAll, S.DrawsFreshIds;
    closed := story;
    if story.busy.Some? {
      var run, busy := story.run, story.busy.value;
      var d := FreeRun(cfg, run);
      DoneIsPrefix(cfg, id, d, busy, s.workers[busy.worker].todo);
      hide EffectOf, AsFarAs;
      AsFarAsThat(cfg, run, busy.memory, busy.op, busy.done);
      var more := run + [AsFarAs(cfg, d, busy.memory, busy.op, busy.done)];
      closed := Story(more, None);
      if busy.told.Some? {
        var tamper := FreeStep(busy.memory, S.Tamper(id, busy.told.value));
        FreeSnoc(cfg, more, tamper);
        closed := Story(more + [tamper], None);
      }
    }
  }

  // ---------------------------------------------------------------- plans when made

  lemma PlainOnly(cfg: Config, id: Id, d: Durable, busy: Busy, ws: seq<Write>)
    requires busy.done + I.Only(ws, {id}) == Script(cfg, d, busy)
    ensures WritesAhead(cfg, id, d, busy, Dos(ws))
  {
    assert Writes(Dos(ws)) == ws;
  }

  lemma AllOwn(ws: seq<Write>, id: Id)
    requires S.AllAbout(ws, id)
    ensures I.Only(ws, {id}) == ws
  {
    I.OnlyAll(ws, {id});
  }

  lemma SomeOwn(ws: seq<Write>, id: Id, i: Id)
    requires Mentions(Dos(ws), id) && S.AllAbout(ws, i)
    ensures i == id
  {
    DosMention(ws, id);
  }

  /** What a plan about the intent reads in the whole store it would read in the intent's
      own part. */
  lemma OpeningScript(cfg: Config, s: Shared, op: Op, seen: BankMemory, id: Id)
    requires Opening(op) && op.id !in s.used && (id !in s.used ==> Own(s.d, id) == EMPTY)
    requires Mentions(Dos(EffectOf(cfg, s.d, seen, op).script), id)
    ensures S.DrawsFreshIds(Own(s.d, id), op)
    ensures I.Only(EffectOf(cfg, s.d, seen, op).script, {id}) == EffectOf(cfg, Own(s.d, id), seen, op).script
  {
    hide Propose, Query, Own;
    var script := EffectOf(cfg, s.d, seen, op).script;
    if op.ProposeOp? {
      S.ProposeQuiet(cfg, seen, op.ctx, op.proposed, op.text, op.id, op.token, op.t1, op.t2);
    } else {
      S.QueryQuiet(seen, op.ctx, op.account, op.id);
    }
    SomeOwn(script, id, op.id);
    AllOwn(script, id);
  }

  lemma StepUpScript(cfg: Config, s: Shared, op: Op, seen: BankMemory, id: Id)
    requires Sound(cfg, s) && op.StepUpOp?
    requires S.Inv(cfg, None, S.World(Own(s.d, id), map[], 0))
    requires Mentions(Dos(EffectOf(cfg, s.d, seen, op).script), id)
    ensures S.DrawsFreshIds(Own(s.d, id), op)
    ensures I.Only(EffectOf(cfg, s.d, seen, op).script, {id}) == EffectOf(cfg, Own(s.d, id), seen, op).script
  {
    hide StepUpBody, StatusOf, Sound;
    var found := OwnedByCustomer(s.d, op.ctx, op.id);
    var script := EffectOf(cfg, s.d, seen, op).script;
    DosMention(script, id);
    assert found.Some? && found.value.state == AwaitingStepUp;
    RowNamed(cfg, s, op.id);
    S.StepUpQuiet(cfg, found.value, seen, op.token, op.t1, op.t2);
    SomeOwn(script, id, op.id);
    AllOwn(script, id);
    OwnReads(s.d, id);
    NoTokenYet(cfg, Own(s.d, id), id, op.token);
  }

  lemma RowNamed(cfg: Config, s: Shared, id: Id)
    requires Sound(cfg, s)
    ensures id in s.d.rows ==> s.d.rows[id].id == id
  {
    assert StoreOk(cfg, s, id);
  }

  lemma NoTokenYet(cfg: Config, d: Durable, id: Id, token: Id)
    requires S.Inv(cfg, None, S.World(d, map[], 0)) && d.rows.Keys <= {id}
    requires id in d.rows && d.rows[id].state == AwaitingStepUp
    ensures S.FreshToken(d, token)
  {
    assert Good(S.EnvAt(cfg, None, 0), id, ViewOf(cfg.secret, d, id));
    forall i | i in d.rows
      ensures i == id
    {
      assert i in d.rows.Keys;
    }
  }

  lemma ConfirmScript(cfg: Config, s: Shared, op: Op, seen: BankMemory, id: Id)
    requires Sound(cfg, s) && S.Ordered(s.d) && op.ConfirmOp? && !Accepted(cfg, s.d, op)
    requires Mentions(Dos(EffectOf(cfg, s.d, seen, op).script), id)
    ensures I.Only(EffectOf(cfg, s.d, seen, op).script, {id}) == EffectOf(cfg, Own(s.d, id), seen, op).script
  {
    hide Sound, StatusOf, Own, S.Ordered;
    var script := EffectOf(cfg, s.d, seen, op).script;
    DosMention(script, id);
    assert OwnedByToken(s.d, op.ctx, op.token).Some?;
    var r := ByToken(s.d, op.token).value;
    FoundByToken(cfg, s, op.token);
    S.ConfirmAbout(cfg, s.d, seen, op.ctx, r, op.token, op.t1, op.t2, op.payment);
    SomeOwn(script, id, r.id);
    AllOwn(script, id);
    OwnToken(s.d, id, op.token);
  }

  lemma CancelScript(cfg: Config, s: Shared, op: Op, seen: BankMemory, id: Id)
    requires Sound(cfg, s) && S.Ordered(s.d) && op.CancelOp?
    requires Mentions(Dos(EffectOf(cfg, s.d, seen, op).script), id)
    ensures I.Only(EffectOf(cfg, s.d, seen, op).script, {id}) == EffectOf(cfg, Own(s.d, id), seen, op).script
  {
    hide Sound, StatusOf, Own, S.Ordered;
    var script := EffectOf(cfg, s.d, seen, op).script;
    DosMention(script, id);
    assert OwnedByToken(s.d, op.ctx, op.token).Some?;
    var r := ByToken(s.d, op.token).value;
    FoundByToken(cfg, s, op.token);
    S.CancelQuiet(cfg, s.d, seen, op.ctx, op.token);
    SomeOwn(script, id, r.id);
    AllOwn(script, id);
    OwnToken(s.d, id, op.token);
  }

  lemma SweepsScript(cfg: Config, s: Shared, seen: BankMemory, id: Id)
    requires Sound(cfg, s) && S.Ordered(s.d)
    ensures I.Only(EffectOf(cfg, s.d, seen, SweepOp).script, {id}) == EffectOf(cfg, Own(s.d, id), seen, SweepOp).script
  {
    hide Sound, SweepScript, InState;
    forall i | i in s.d.order
      ensures i in s.d.rows && s.d.rows[i].id == i
    {
      RowNamed(cfg, s, i);
    }
    I.SweepOnly(s.d.order, s.d.rows, Own(s.d, id).rows, {id});
  }

  lemma ScriptOnOwn(cfg: Config, s: Shared, op: Op, seen: BankMemory, id: Id)
    requires Sound(cfg, s) && S.Ordered(s.d) && !Accepted(cfg, s.d, op)
    requires S.Inv(cfg, None, S.World(Own(s.d, id), map[], 0)) && (id !in s.used ==> Own(s.d, id) == EMPTY)
    requires (Opening(op) ==> op.id !in s.used)
    requires op.ReconcileOp? ==>
      !(OwnedByCustomer(s.d, op.ctx, op.id).Some? && OwnedByCustomer(s.d, op.ctx, op.id).value.state == Unknown)
    requires Mentions(Dos(EffectOf(cfg, s.d, seen, op).script), id)
    ensures S.DrawsFreshIds(Own(s.d, id), op)
    ensures I.Only(EffectOf(cfg, s.d, seen, op).script, {id}) == EffectOf(cfg, Own(s.d, id), seen, op).script
  {
    match op
    case ProposeOp(_, _, _, _, _, _, _) => OpeningScript(cfg, s, op, seen, id);
    case QueryOp(_, _, _) => OpeningScript(cfg, s, op, seen, id);
    case StepUpOp(_, _, _, _, _) => StepUpScript(cfg, s, op, seen, id);
    case ConfirmOp(_, _, _, _, _) => ConfirmScript(cfg, s, op, seen, id);
    case CancelOp(_, _) => CancelScript(cfg, s, op, seen, id);
    case SweepOp => SweepsScript(cfg, s, seen, id);
    case _ => DosMention(EffectOf(cfg, s.d, seen, op).script, id);
  }

  lemma CallOnOwn(cfg: Config, s: Shared, worker: nat, op: Op, seen: BankMemory, id: Id)
    requires Sound(cfg, s) && S.Ordered(s.d) && Accepted(cfg, s.d, op)
    requires Mentions(Plan(cfg, s.d, op, seen), id)
    ensures CallAhead(cfg, id, Own(s.d, id), Busy(worker, op, seen, [], None), Plan(cfg, s.d, op, seen))
  {
    hide Sound, ConsentScript, Own, S.Ordered;
    var r := ByToken(s.d, op.token).value;
    FoundByToken(cfg, s, op.token);
    var consent, call := ConsentScript(r, op.ctx, op.token, op.t2), Call(SubmittedRow(r, op.ctx, op.t2), op.payment);
    S.ConsentAbout(r, op.ctx, op.token, op.t2);
    PlanAbout(consent, call, r.id, id);
    OwnToken(s.d, id, op.token);
    assert consent[0..] == consent;
  }

  lemma PlanAbout(ws: seq<Write>, last: Job, i: Id, id: Id)
    requires S.AllAbout(ws, i) && About(last, i) && !last.Do? && Mentions(Dos(ws) + [last], id)
    ensures i == id
  {
    var job :| job in Dos(ws) + [last] && About(job, id);
    if job in Dos(ws) {
      assert job.write in ws;
    }
  }

  lemma PlanAhead(cfg: Config, s: Shared, worker: nat, op: Op, seen: BankMemory, id: Id)
    requires Sound(cfg, s) && S.Ordered(s.d) && (Opening(op) ==> op.id !in s.used)
    requires S.Inv(cfg, None, S.World(Own(s.d, id), map[], 0)) && (id !in s.used ==> Own(s.d, id) == EMPTY)
    requires Mentions(Plan(cfg, s.d, op, seen), id)
    ensures S.DrawsFreshIds(Own(s.d, id), op)
    ensures Ahead(cfg, id, Own(s.d, id), Busy(worker, op, seen, [], None), Plan(cfg, s.d, op, seen))
  {
    hide Sound, EffectOf, Own, S.Ordered, S.Inv, CallAhead, WritesAhead, ConsentScript;
    var busy := Busy(worker, op, seen, [], None);
    if Accepted(cfg, s.d, op) {
      CallOnOwn(cfg, s, worker, op, seen, id);
    } else if op.ReconcileOp? && OwnedByCustomer(s.d, op.ctx, op.id).Some? && s.d.rows[op.id].state == Unknown {
      RowNamed(cfg, s, op.id);
      OwnReads(s.d, id);
    } else {
      ScriptOnOwn(cfg, s, op, seen, id);
      PlainOnly(cfg, id, Own(s.d, id), busy, EffectOf(cfg, s.d, seen, op).script);
    }
  }

  // ---------------------------------------------------------------- one job

  function JobsLeft(cfg: Config, s: Shared, worker: nat): seq<Job>
    requires worker in s.workers && s.workers[worker].todo != []
  {
    DoJob(cfg, s, worker).workers[worker].todo
  }

  function Wrote(busy: Busy, id: Id, w: Write): Busy {
    if Subject(w) != id then busy
    else busy.(done := busy.done + [w], told := if w.Put? then None else busy.told)
  }

  lemma PlainWritten(cfg: Config, id: Id, d: Durable, busy: Busy, todo: seq<Job>)
    requires WritesAhead(cfg, id, d, busy, todo) && todo != []
    ensures WritesAhead(cfg, id, d, Wrote(busy, id, todo[0].write), todo[1..])
  {
    hide EffectOf;
    assert Writes(todo)[0] == todo[0].write && Writes(todo)[1..] == Writes(todo[1..]);
    var rest := I.Only(Writes(todo[1..]), {id});
    assert busy.done + ([todo[0].write] + rest) == busy.done + [todo[0].write] + rest;
  }

  lemma FirstOfDos(ws: seq<Write>, last: Job)
    requires ws != []
    ensures (Dos(ws) + [last])[0] == Do(ws[0]) && (Dos(ws) + [last])[1..] == Dos(ws[1..]) + [last]
  {
  }

  lemma ConsentWritten(cfg: Config, id: Id, d: Durable, busy: Busy, todo: seq<Job>)
    requires CallAhead(cfg, id, d, busy, todo) && todo[0].Do?
    ensures CallAhead(cfg, id, d, Wrote(busy, id, todo[0].write), todo[1..])
  {
    hide ConsentScript, SubmittedRow, Refusal;
    var op, consent := busy.op, ConsentOn(cfg, d, busy.op);
    var r := ByToken(d, op.token).value;
    S.ConsentAbout(r, op.ctx, op.token, op.t2);
    if busy.done <= consent && todo == Dos(consent[|busy.done|..]) + [Call(SubmittedOn(cfg, d, op), op.payment)] {
      var n := |busy.done|;
      if n < |consent| {
        FirstOfDos(consent[n..], Call(SubmittedOn(cfg, d, op), op.payment));
        assert consent[n] in consent && consent[n..][0] == consent[n] && consent[n..][1..] == consent[n + 1..];
        assert busy.done + [consent[n]] == consent[..n + 1];
      }
    } else {
      assert todo[1..] == [todo[1]];
    }
  }

  lemma WriteAhead(cfg: Config, id: Id, d: Durable, busy: Busy, todo: seq<Job>)
    requires Ahead(cfg, id, d, busy, todo) && todo != [] && todo[0].Do?
    ensures Ahead(cfg, id, d, Wrote(busy, id, todo[0].write), todo[1..])
  {
    hide CallAhead, WritesAhead;
    if WritesAhead(cfg, id, d, busy, todo) {
      PlainWritten(cfg, id, d, busy, todo);
    } else {
      ConsentWritten(cfg, id, d, busy, todo);
    }
  }

  lemma WriteUnderway(cfg: Config, s: Shared, id: Id, d: Durable, busy: Busy)
    requires Underway(cfg, s, id, d, busy)
    requires s.workers[busy.worker].todo != [] && s.workers[busy.worker].todo[0].Do?
    ensures Underway(cfg, DoJob(cfg, s, busy.worker), id, d,
                     Wrote(busy, id, s.workers[busy.worker].todo[0].write))
  {
    hide Ahead, Own, Told, ApplyAll, Apply, S.DrawsFreshIds, Mentions;
    var todo := s.workers[busy.worker].todo;
    var w := todo[0].write;
    WriteAhead(cfg, id, d, busy, todo);
    I.RestrictWrite(s.d, w, {id});
    OwnAfter(s.d, w, id);
    if Subject(w) == id {
      ToldWrite(ApplyAll(d, busy.done), id, busy.told, w);
      OneMoreWrite(d, busy.done, w);
    }
    TurnElsewhere(cfg, s, busy.worker);
  }

  lemma OwnAfter(d: Durable, w: Write, id: Id)
    ensures Own(Apply(d, w), id) == if Subject(w) == id then Apply(Own(d, id), w) else Own(d, id)
  {
    I.RestrictWrite(d, w, {id});
  }

  lemma OneMoreWrite(d: Durable, ws: seq<Write>, w: Write)
    ensures ApplyAll(d, ws + [w]) == Apply(ApplyAll(d, ws), w)
  {
    ApplyAllConcat(d, ws, [w]);
    assert [w][1..] == [];
  }

  lemma SettleAhead(cfg: Config, id: Id, d: Durable, busy: Busy, r: InFlight, answer: Answer)
    requires r.id == id && Script(cfg, d, busy) == busy.done + SettleScript(r, answer)
    ensures Ahead(cfg, id, d, busy, Dos(SettleScript(r, answer)))
  {
    hide EffectOf, SettleScript, SavesLike;
    SettleSavesLike(r, answer);
    SettleIsAbout(r, answer);
    AllOwn(SettleScript(r, answer), id);
    PlainOnly(cfg, id, d, busy, SettleScript(r, answer));
  }

  lemma SettleIsAbout(r: InFlight, answer: Answer)
    ensures S.AllAbout(SettleScript(r, answer), r.id)
  {
    hide SettleScript;
    SettleSavesLike(r, answer);
  }

  lemma QuestionScript(cfg: Config, id: Id, d: Durable, busy: Busy, todo: seq<Job>)
    requires QuestionAhead(cfg, id, d, busy, todo)
    ensures Script(cfg, d, busy) == ReconcileScript(d.rows[id], Lookup(d.book, id))
  {
    hide ReconcileScript, StatusOf, Dos;
  }

  lemma QuestionLeaves(cfg: Config, s: Shared, worker: nat, q: InDoubt)
    requires worker in s.workers && s.workers[worker].todo != [] && s.workers[worker].todo[0] == AskBook(q)
    ensures JobsLeft(cfg, s, worker) == Dos(ReconcileScript(q, Lookup(s.d.book, q.id)))
  {
    hide ReconcileScript, Dos, SettleScript, Refusal, Apply;
  }

  lemma QuestionAnswered(cfg: Config, s: Shared, worker: nat, id: Id, d: Durable, busy: Busy)
    requires worker in s.workers && s.workers[worker].todo != []
    requires QuestionAhead(cfg, id, d, busy, s.workers[worker].todo)
    requires Lookup(s.d.book, id) == Lookup(ApplyAll(d, busy.done).book, id)
    ensures Ahead(cfg, id, d, busy, JobsLeft(cfg, s, worker))
  {
    hide ReconcileScript, EffectOf, JobsLeft, Dos;
    var q := d.rows[id];
    QuestionScript(cfg, id, d, busy, s.workers[worker].todo);
    QuestionLeaves(cfg, s, worker, q);
    S.ReconcileQuiet(q, Lookup(d.book, id));
    AllOwn(ReconcileScript(q, Lookup(d.book, id)), id);
    PlainOnly(cfg, id, d, busy, ReconcileScript(q, Lookup(d.book, id)));
  }

  /** Up to the bank call nothing is booked. */
  lemma ConsentBooksNothing(cfg: Config, d: Durable, op: Op)
    requires Accepted(cfg, d, op)
    ensures ApplyAll(d, ConsentOn(cfg, d, op)).book == d.book
  {
    ConsentFilesNothing(d, ByToken(d, op.token).value, op.ctx, op.token, op.t2);
  }

  lemma BookLooked(cfg: Config, s: Shared, worker: nat, id: Id, d: Durable, busy: Busy)
    requires worker in s.workers && s.workers[worker].todo != [] && s.workers[worker].todo[0].Call?
    requires CallAhead(cfg, id, d, busy, s.workers[worker].todo)
    requires Lookup(s.d.book, id) == Lookup(ApplyAll(d, busy.done).book, id)
    ensures Ahead(cfg, id, d, busy, JobsLeft(cfg, s, worker))
  {
    hide EffectOf, ConsentScript, SettleScript, Refusal, ApplyAll, Reaches, WritesAhead;
    var op := busy.op;
    var r, consent := SubmittedOn(cfg, d, op), ConsentOn(cfg, d, op);
    assert busy.done == consent;
    ConsentBooksNothing(cfg, d, op);
    if id in d.book {
      BookedScript(cfg, d, busy.memory, op, id);
      SettleAhead(cfg, id, d, busy, r, Paid(d.book[id]));
    } else {
      assert CallAhead(cfg, id, d, busy, [Check(r, op.payment)]);
    }
  }

  /** The balances of the worker's bank, as they are now, are the ones the script is told with. */
  lemma AccountChecked(cfg: Config, s: Shared, worker: nat, id: Id, d: Durable, busy: Busy)
    requires worker in s.workers && s.workers[worker].todo != [] && s.workers[worker].todo[0].Check?
    requires CallAhead(cfg, id, d, busy, s.workers[worker].todo)
    ensures Ahead(cfg, id, d, busy.(memory := MemoryIn(cfg, s, s.workers[worker].bank)),
                  JobsLeft(cfg, s, worker))
  {
    hide EffectOf, ConsentScript, SettleScript, Refusal, Reaches, WritesAhead, MemoryIn;
    var op, memory := busy.op, MemoryIn(cfg, s, s.workers[worker].bank);
    var r, checked := SubmittedOn(cfg, d, op), busy.(memory := memory);
    var refusal := Refusal(cfg.contacts, memory, r.action);
    if refusal.Some? {
      RefusedScript(cfg, d, memory, op, id);
      SettleAhead(cfg, id, d, checked, r, Refused(refusal.value));
    } else {
      assert PaymentAhead(cfg, id, d, checked, [Debit(r, op.payment)]);
    }
  }

  lemma AccountDebited(cfg: Config, s: Shared, worker: nat, id: Id, d: Durable, busy: Busy)
    requires worker in s.workers && s.workers[worker].todo != [] && s.workers[worker].todo[0].Debit?
    requires CallAhead(cfg, id, d, busy, s.workers[worker].todo)
    ensures Ahead(cfg, id, d, busy, JobsLeft(cfg, s, worker))
  {
    hide EffectOf, ConsentScript, Refusal, Reaches, WritesAhead, MemoryIn, Debited;
    var r, receipt := SubmittedOn(cfg, d, busy.op), ReceiptOn(cfg, d, busy.op);
    assert PaymentAhead(cfg, id, d, busy, [Do(File(id, receipt)), Reread(r, receipt)]);
  }

  lemma ReceiptReread(cfg: Config, s: Shared, worker: nat, id: Id, d: Durable, busy: Busy)
    requires worker in s.workers && s.workers[worker].todo != [] && s.workers[worker].todo[0].Reread?
    requires CallAhead(cfg, id, d, busy, s.workers[worker].todo)
    requires Lookup(s.d.book, id) == Lookup(ApplyAll(d, busy.done).book, id)
    ensures Ahead(cfg, id, d, busy, JobsLeft(cfg, s, worker))
  {
    hide EffectOf, ConsentScript, SettleScript, Refusal, ApplyAll, Reaches, WritesAhead;
    var op := busy.op;
    var r, consent, receipt := SubmittedOn(cfg, d, op), ConsentOn(cfg, d, op), ReceiptOn(cfg, d, op);
    ConsentBooksNothing(cfg, d, op);
    OneMoreWrite(d, consent, File(id, receipt));
    assert s.d.book[id] == receipt;
    PaidScript(cfg, d, busy.memory, op, id);
    SettleAhead(cfg, id, d, busy, r, LastAnswer(cfg, d, op));
  }

  lemma WhichAhead(cfg: Config, id: Id, d: Durable, busy: Busy, todo: seq<Job>)
    requires Ahead(cfg, id, d, busy, todo) && todo != [] && !todo[0].Do?
    ensures if todo[0].AskBook? then QuestionAhead(cfg, id, d, busy, todo) else CallAhead(cfg, id, d, busy, todo)
  {
    hide Accepted, ConsentScript, Refusal, EffectOf;
  }

  /** A step of `create_pix`, or the reconciliation query: nothing is written, and what is
      left still completes a script. */
  lemma JobAhead(cfg: Config, s: Shared, worker: nat, id: Id, d: Durable, busy: Busy) returns (busy': Busy)
    requires worker in s.workers && s.workers[worker].todo != [] && !s.workers[worker].todo[0].Do?
    requires Ahead(cfg, id, d, busy, s.workers[worker].todo)
    requires Lookup(s.d.book, id) == Lookup(ApplyAll(d, busy.done).book, id)
    ensures busy' == busy.(memory := busy'.memory)
    ensures Ahead(cfg, id, d, busy', JobsLeft(cfg, s, worker))
  {
    hide JobsLeft, MemoryIn, ApplyAll, CallAhead, QuestionAhead, Ahead;
    busy' := busy;
    var todo := s.workers[worker].todo;
    WhichAhead(cfg, id, d, busy, todo);
    match todo[0]
    case Call(_, _) => BookLooked(cfg, s, worker, id, d, busy);
    case Check(_, _) =>
      AccountChecked(cfg, s, worker, id, d, busy);
      busy' := busy.(memory := MemoryIn(cfg, s, s.workers[worker].bank));
    case Debit(_, _) => AccountDebited(cfg, s, worker, id, d, busy);
    case Reread(_, _) => ReceiptReread(cfg, s, worker, id, d, busy);
    case AskBook(_) => QuestionAnswered(cfg, s, worker, id, d, busy);
  }

  lemma BookOfOwn(s: Shared, id: Id, d: Durable, done: seq<Write>, told: Option<CreatePix>)
    requires Own(s.d, id) == Told(ApplyAll(d, done), id, told)
    ensures Lookup(s.d.book, id) == Lookup(ApplyAll(d, done).book, id)
  {
    OwnReads(s.d, id);
    hide Own, ApplyAll;
  }

  lemma JobUnderway(cfg: Config, s: Shared, id: Id, d: Durable, busy: Busy) returns (busy': Busy)
    requires Underway(cfg, s, id, d, busy)
    requires s.workers[busy.worker].todo != [] && !s.workers[busy.worker].todo[0].Do?
    ensures busy'.worker == busy.worker && Underway(cfg, DoJob(cfg, s, busy.worker), id, d, busy')
  {
    hide Ahead, Own, Told, ApplyAll, S.DrawsFreshIds, Mentions, DoJob;
    BookOfOwn(s, id, d, busy.done, busy.told);
    busy' := JobAhead(cfg, s, busy.worker, id, d, busy);
    TurnWrites(cfg, s, busy.worker);
    TurnElsewhere(cfg, s, busy.worker);
  }

  // ---------------------------------------------------------------- one tick

  lemma TurnLeavesOthers(cfg: Config, s: Shared, worker: nat, id: Id)
    requires worker in s.workers && s.workers[worker].todo != []
    requires Mentions(JobsLeft(cfg, s, worker), id)
    ensures Mentions(s.workers[worker].todo, id)
  {
    var job, todo := s.workers[worker].todo[0], s.workers[worker].todo;
    assert job in todo;
    if job.Do? {
      assert forall x | x in todo[1..] :: x in todo;
    } else if job.AskBook? {
      S.ReconcileQuiet(job.doubt, Lookup(s.d.book, job.doubt.id));
      DosMention(ReconcileScript(job.doubt, Lookup(s.d.book, job.doubt.id)), id);
    } else {
      CallStaysOnItsIntent(cfg, s, worker, id);
    }
  }

  lemma CallStaysOnItsIntent(cfg: Config, s: Shared, worker: nat, id: Id)
    requires worker in s.workers && s.workers[worker].todo != []
    requires !s.workers[worker].todo[0].Do? && !s.workers[worker].todo[0].AskBook?
    ensures Mentions(JobsLeft(cfg, s, worker), id) ==> s.workers[worker].todo[0].row.id == id
  {
    var job := s.workers[worker].todo[0];
    hide Refusal;
    match job
    case Call(r, _) =>
      if r.id in s.d.book {
        SettleMentions(r, Paid(s.d.book[r.id]), id);
      }
    case Check(r, _) =>
      var refusal := Refusal(cfg.contacts, MemoryIn(cfg, s, s.workers[worker].bank), r.action);
      if refusal.Some? {
        SettleMentions(r, Refused(refusal.value), id);
      }
    case Debit(_, _) =>
    case Reread(r, mine) =>
      var stored := if r.id in s.d.book then s.d.book[r.id] else mine;
      SettleMentions(r, NoAnswer, id);
      SettleMentions(r, Paid(stored), id);
  }

  lemma SettleMentions(r: InFlight, answer: Answer, id: Id)
    ensures Mentions(Dos(SettleScript(r, answer)), id) ==> r.id == id
  {
    DosMention(SettleScript(r, answer), id);
  }

  lemma TurnDrawsNothing(cfg: Config, s: Shared, worker: nat)
    requires worker in s.workers && s.workers[worker].todo != []
    ensures DoJob(cfg, s, worker).used == s.used
  {
  }

  lemma TurnOfAnother(cfg: Config, s: Shared, worker: nat, id: Id)
    requires worker in s.workers && s.workers[worker].todo != [] && !Mentions(s.workers[worker].todo, id)
    ensures var s' := DoJob(cfg, s, worker);
      Own(s'.d, id) == Own(s.d, id) && !Mentions(JobsLeft(cfg, s, worker), id)
  {
    var todo := s.workers[worker].todo;
    TurnWrites(cfg, s, worker);
    if Mentions(JobsLeft(cfg, s, worker), id) {
      TurnLeavesOthers(cfg, s, worker, id);
    }
    hide DoJob, Own;
    if todo[0].Do? {
      assert todo[0] in todo && !About(todo[0], id);
      OwnAfter(s.d, todo[0].write, id);
    }
  }

  lemma TurnTells(cfg: Config, s: Shared, worker: nat, id: Id, story: Story) returns (story': Story)
    requires Sound(cfg, s) && Tells(cfg, s, id, story)
    requires worker in s.workers && s.workers[worker].todo != []
    ensures Tells(cfg, DoJob(cfg, s, worker), id, story')
  {
    var s' := DoJob(cfg, s, worker);
    TurnDrawsNothing(cfg, s, worker);
    TurnElsewhere(cfg, s, worker);
    assert Unopened(cfg, s, id);
    hide DoJob, Own, Ahead, Told, ApplyAll, FreeRun, FreeValid, Mentions, Sound, S.DrawsFreshIds, AuditOf, Trail;
    story' := story;
    if story.busy.Some? && story.busy.value.worker == worker {
      var d, busy := FreeRun(cfg, story.run), story.busy.value;
      var busy': Busy;
      if s.workers[worker].todo[0].Do? {
        WriteUnderway(cfg, s, id, d, busy);
        busy' := Wrote(busy, id, s.workers[worker].todo[0].write);
      } else {
        busy' := JobUnderway(cfg, s, id, d, busy);
      }
      story' := Story(story.run, Some(busy'));
      if id !in s.used {
        TurnOfAnother(cfg, s, worker, id);
      }
    } else {
      TurnOfAnother(cfg, s, worker, id);
    }
  }

  lemma BeginTells(cfg: Config, s: Shared, m: Tick, id: Id, story: Story) returns (story': Story)
    requires Sound(cfg, s) && S.Ordered(s.d) && Tells(cfg, s, id, story)
    requires m.Begin? && Possible(s, m) && Free(cfg, s, m)
    ensures Tells(cfg, Ticked(cfg, s, m), id, story')
  {
    hide Own, Ahead, Told, ApplyAll, FreeRun, FreeValid, Sound, S.DrawsFreshIds, Plan, S.Inv, S.Ordered;
    var s', plan := Ticked(cfg, s, m), Plan(cfg, s.d, m.op, m.seen);
    story' := story;
    if Mentions(plan, id) || (story.busy.Some? && story.busy.value.worker == m.worker) {
      NobodyElse(cfg, s, m, id, story);
      var closed := Closes(cfg, s, id, story);
      story' := closed;
      if Mentions(plan, id) {
        FreeRunIsGood(cfg, closed.run);
        PlanAhead(cfg, s, m.worker, m.op, m.seen, id);
        story' := Story(closed.run, Some(Busy(m.worker, m.op, m.seen, [], None)));
        NothingDone(Own(s.d, id), id);
      }
    }
  }

  lemma NothingDone(d: Durable, id: Id)
    ensures Told(ApplyAll(d, []), id, None) == d
  {
  }

  lemma NobodyElse(cfg: Config, s: Shared, m: Tick, id: Id, story: Story)
    requires Tells(cfg, s, id, story) && m.Begin? && Possible(s, m) && Free(cfg, s, m)
    requires Mentions(Plan(cfg, s.d, m.op, m.seen), id)
          || (story.busy.Some? && story.busy.value.worker == m.worker)
    ensures Others(s, m.worker, id)
    ensures story.busy.Some? ==> Others(s, story.busy.value.worker, id)
  {
    hide Own, Ahead, Told, ApplyAll, FreeRun, FreeValid, S.DrawsFreshIds, Plan;
  }

  lemma DieTells(cfg: Config, s: Shared, worker: nat, id: Id, story: Story) returns (story': Story)
    requires Tells(cfg, s, id, story) && worker in s.workers
    ensures Tells(cfg, Ticked(cfg, s, Die(worker)), id, story')
  {
    hide Own, Ahead, Told, ApplyAll, FreeRun, FreeValid, S.DrawsFreshIds;
    story' := story;
    if story.busy.Some? && story.busy.value.worker == worker {
      story' := Closes(cfg, s, id, story);
    }
  }

  /** No plan reads the stored action again. */
  lemma AheadRetold(cfg: Config, id: Id, d: Durable, busy: Busy, action: CreatePix, todo: seq<Job>)
    requires Ahead(cfg, id, d, busy, todo)
    ensures Ahead(cfg, id, d, busy.(told := Some(action)), todo)
  {
    hide EffectOf, Accepted, ConsentScript, Refusal;
  }

  lemma RewriteTells(cfg: Config, s: Shared, i: Id, action: CreatePix, id: Id, story: Story) returns (story': Story)
    requires Tells(cfg, s, id, story)
    ensures Tells(cfg, s.(d := S.Tampered(s.d, i, action)), id, story')
  {
    OwnTampered(s.d, id, i, action);
    hide Own, Ahead, ApplyAll, FreeRun, FreeValid, S.DrawsFreshIds, Mentions;
    story' := story;
    if i == id {
      if story.busy.Some? {
        var busy := story.busy.value;
        ToldAgain(ApplyAll(FreeRun(cfg, story.run), busy.done), id, busy.told, action);
        AheadRetold(cfg, id, FreeRun(cfg, story.run), busy, action, s.workers[busy.worker].todo);
        story' := Story(story.run, Some(busy.(told := Some(action))));
      } else {
        var tamper := FreeStep(BankMemory(map[], {}), S.Tamper(id, action));
        FreeSnoc(cfg, story.run, tamper);
        story' := Story(story.run + [tamper], None);
      }
    }
  }

  lemma TickKeepsOrder(cfg: Config, s: Shared, m: Tick)
    requires S.Ordered(s.d)
    ensures S.Ordered(Ticked(cfg, s, m).d)
  {
    hide DoJob, Plan;
    if Possible(s, m) {
      match m
      case Turn(worker) =>
        TurnWrites(cfg, s, worker);
        var job := s.workers[worker].todo[0];
        if job.Do? {
          S.OrderedKept(s.d, [job.write]);
          OneMoreWrite(s.d, [], job.write);
          assert [] + [job.write] == [job.write];
        }
      case Rewrite(_, _) => assert Ticked(cfg, s, m).d.rows.Keys == s.d.rows.Keys;
      case _ => assert Ticked(cfg, s, m).d == s.d;
    }
  }

  lemma {:induction false} StoreIsOrdered(cfg: Config, ticks: seq<Tick>)
    ensures S.Ordered(Interleave(cfg, ticks).d)
    decreases |ticks|
  {
    hide Ticked, S.Ordered;
    if ticks == [] {
      NothingIsOrdered();
    } else {
      var before := ticks[..|ticks| - 1];
      StoreIsOrdered(cfg, before);
      TickKeepsOrder(cfg, Interleave(cfg, before), ticks[|ticks| - 1]);
    }
  }

  lemma NothingIsOrdered()
    ensures S.Ordered(EMPTY)
  {
  }

  lemma {:induction false} StoryOf(cfg: Config, ticks: seq<Tick>, id: Id) returns (story: Story)
    requires Locked(cfg, ticks)
    ensures Tells(cfg, Interleave(cfg, ticks), id, story)
    decreases |ticks|
  {
    if ticks == [] {
      story := Story([], None);
    } else {
      var before, m := ticks[..|ticks| - 1], ticks[|ticks| - 1];
      var s := Interleave(cfg, before);
      story := StoryOf(cfg, before, id);
      EveryInterleavingIsSound(cfg, before);
      StoreIsOrdered(cfg, before);
      hide Interleave, Sound, Tells, DoJob, Plan, S.Ordered;
      if Possible(s, m) {
        match m
        case Begin(_, _, _, _) => story := BeginTells(cfg, s, m, id, story);
        case Turn(worker) => story := TurnTells(cfg, s, worker, id, story);
        case Die(worker) => story := DieTells(cfg, s, worker, id, story);
        case Rewrite(i, action) => story := RewriteTells(cfg, s, i, action, id, story);
      }
    }
  }

  // ---------------------------------------------------------------- serializable, intent by intent

  /** In every interleaving that keeps the lock, however workers die and whatever is done
      to stored actions, an intent's row, events and booking are exactly those of some run
      of the serial system, of operations done whole or cut short. */
  lemma LockedIsSerializable(cfg: Config, ticks: seq<Tick>, id: Id) returns (run: seq<FreeStep>)
    requires Locked(cfg, ticks)
    ensures FreeValid(cfg, run) && FreeRun(cfg, run) == Own(Interleave(cfg, ticks).d, id)
  {
    var s := Interleave(cfg, ticks);
    hide Interleave, FreeRun, FreeValid, Own;
    var story := StoryOf(cfg, ticks, id);
    var closed := Closes(cfg, s, id, story);
    run := closed.run;
  }

  /** So the serial invariant holds of each intent, and with it all it says of one: its
      consent, limits, ledger and booking. */
  lemma LockedIsGood(cfg: Config, ticks: seq<Tick>, id: Id)
    requires Locked(cfg, ticks)
    ensures Good(Env(cfg, AnyClock, None), id, ViewOf(cfg.secret, Interleave(cfg, ticks).d, id))
  {
    hide Interleave, FreeRun, FreeValid, Own, Good, ViewOf, Locked;
    var run := LockedIsSerializable(cfg, ticks, id);
    FreeRunIsGood(cfg, run);
    OwnView(cfg.secret, Interleave(cfg, ticks).d, id);
  }

  /** Stored state and book agree about every intent. */
  lemma LockedStateAgreesWithBook(cfg: Config, ticks: seq<Tick>, id: Id)
    requires Locked(cfg, ticks)
    ensures G.StoredAsBooked(Interleave(cfg, ticks).d, id)
  {
    hide Interleave, Trail, AuditOf, Locked;
    LockedIsGood(cfg, ticks, id);
  }
}
