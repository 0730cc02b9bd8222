/** What an operator does after a crash (src/control_plane/plane.py): a boot sweep, then one
    reconciliation for each intent left UNKNOWN. Together they settle everything whose
    money could have moved, each as the bank's book says. */
module Recovery {
  import opened Actions
  import opened Machine
  import opened Bank
  import opened Plane
  import opened Intents
  import opened Serial
  import opened Guarantees
  import opened Lifetimes

  function UnknownIds(d: Durable): seq<Id> {
    RowIds(InState(d.order, d.rows, Unknown))
  }

  /** One reconciliation each, by the conversation that owns the intent. */
  function Asking(d: Durable, ids: seq<Id>): seq<Step>
    requires forall id | id in ids :: id in d.rows
  {
    seq(|ids|, k requires 0 <= k < |ids| => Done(ReconcileOp(d.rows[ids[k]].context, ids[k])))
  }

  /** Those and only those are settled, as the book has them. */
  ghost predicate Asked(d: Durable, d': Durable, ids: seq<Id>)
    requires forall id | id in ids :: id in d.rows && d.rows[id].state == Unknown
  {
    && d'.book == d.book && d'.rows.Keys == d.rows.Keys
    && (forall id | id in d.rows ::
          d'.rows[id] == if id in ids then ReconciledRow(d.rows[id], Lookup(d.book, id)) else d.rows[id])
  }

  lemma ReconcileNext(cfg: Config, w: World, ctx: Context, id: Id)
    requires id in w.d.rows && w.d.rows[id].id == id && w.d.rows[id].state == Unknown
    requires w.d.rows[id].context.customer == ctx.customer
    ensures Next(cfg, w, Done(ReconcileOp(ctx, id))).d
         == ApplyAll(w.d, ReconcilePix(cfg, w.d, MemoryOf(cfg, w, PrincipalOf(ctx)), ctx, id).script)
         == ApplyAll(w.d, ReconcileScript(w.d.rows[id], Lookup(w.d.book, id)))
  {
    hide ApplyAll, ReconcileScript, StatusOf;
  }

  lemma SameElsewhere(cfg: Config, d: Durable, d': Durable, id: Id)
    requires id in d.rows && id in d'.rows
    requires forall other | other != id :: ViewOf(cfg.secret, d', other) == ViewOf(cfg.secret, d, other)
    ensures d'.rows.Keys == d.rows.Keys
    ensures forall other | other in d.rows && other != id :: d'.rows[other] == d.rows[other]
  {
    forall other | other != id
      ensures Lookup(d'.rows, other) == Lookup(d.rows, other)
    {
      assert ViewOf(cfg.secret, d', other) == ViewOf(cfg.secret, d, other);
    }
    forall other
      ensures other in d'.rows.Keys <==> other in d.rows.Keys
    {
      assert other != id ==> Lookup(d'.rows, other) == Lookup(d.rows, other);
    }
    forall other | other in d.rows && other != id
      ensures d'.rows[other] == d.rows[other]
    {
      assert Lookup(d'.rows, other) == Lookup(d.rows, other);
    }
  }

  lemma AskOne(cfg: Config, steps: seq<Step>, ctx: Context, id: Id)
    requires ValidRun(cfg, None, steps)
    requires var d := Run(cfg, steps).d;
      id in d.rows && d.rows[id].state == Unknown && d.rows[id].context.customer == ctx.customer
    ensures var more := steps + [Done(ReconcileOp(ctx, id))];
      ValidRun(cfg, None, more) && Asked(Run(cfg, steps).d, Run(cfg, more).d, [id])
  {
    hide Run, ValidRun, Inv, Next, ApplyAll, ReconcileScript, ReconcilePix, ReconciledRow, ViewOf;
    var w, op := Run(cfg, steps), ReconcileOp(ctx, id);
    RunSnoc(cfg, None, steps, Done(op));
    ReconcileSettles(cfg, steps, MemoryOf(cfg, w, PrincipalOf(ctx)), ctx, id);
    EveryRunIsGood(cfg, None, steps);
    RowIsNamed(cfg, None, w, id);
    ReconcileNext(cfg, w, ctx, id);
    ReconcileStores(cfg, w, id);
    SameElsewhere(cfg, w.d, Next(cfg, w, Done(op)).d, id);
  }

  lemma {:induction false} AskAll(cfg: Config, steps: seq<Step>, ids: seq<Id>, k: nat)
    requires ValidRun(cfg, None, steps) && k <= |ids|
    requires forall id | id in ids :: id in Run(cfg, steps).d.rows && Run(cfg, steps).d.rows[id].state == Unknown
    requires forall i, j | 0 <= i < j < |ids| :: ids[i] != ids[j]
    ensures var d := Run(cfg, steps).d;
      var more := steps + Asking(d, ids)[..k];
      ValidRun(cfg, None, more) && Asked(d, Run(cfg, more).d, ids[..k])
  {
    hide Run, ValidRun, ReconciledRow;
    var d := Run(cfg, steps).d;
    if k == 0 {
      assert steps + Asking(d, ids)[..0] == steps;
    } else {
      AskAll(cfg, steps, ids, k - 1);
      var before, id := steps + Asking(d, ids)[..k - 1], ids[k - 1];
      assert steps + Asking(d, ids)[..k] == before + [Done(ReconcileOp(d.rows[id].context, id))];
      assert id !in ids[..k - 1];
      assert ids[..k] == ids[..k - 1] + [id];
      AskOne(cfg, before, d.rows[id].context, id);
    }
  }

  /** The sweep, then a question for each UNKNOWN intent it leaves. */
  function RecoverySteps(cfg: Config, w: World): seq<Step>
    requires forall id | id in UnknownIds(Next(cfg, w, Done(SweepOp)).d) :: id in Next(cfg, w, Done(SweepOp)).d.rows
  {
    var swept := Next(cfg, w, Done(SweepOp)).d;
    [Done(SweepOp)] + Asking(swept, UnknownIds(swept))
  }

  lemma SweptRun(cfg: Config, steps: seq<Step>)
    requires ValidRun(cfg, None, steps)
    ensures var w := Run(cfg, steps);
      var swept := Next(cfg, w, Done(SweepOp)).d;
      && ValidRun(cfg, None, steps + [Done(SweepOp)]) && Run(cfg, steps + [Done(SweepOp)]).d == swept
      && SweptRows(w.d, swept) && swept.book == w.d.book
      && (forall id :: id in UnknownIds(swept) <==> id in swept.rows && swept.rows[id].state == Unknown)
      && (forall i, j | 0 <= i < j < |UnknownIds(swept)| :: UnknownIds(swept)[i] != UnknownIds(swept)[j])
  {
    hide Run, ValidRun, Next, SweepScript, ApplyAll, InState, SweptRows, ViewOf, AllGood;
    var w, more := Run(cfg, steps), steps + [Done(SweepOp)];
    RunSnoc(cfg, None, steps, Done(SweepOp));
    SweepNext(cfg, w, 0);
    SweepRecovers(cfg, steps, MemoryOf(cfg, w, PrincipalOn(SweepOp)));
    EveryRunIsGood(cfg, None, more);
    var swept := Run(cfg, more);
    forall id | id in swept.d.order
      ensures id in swept.d.rows && swept.d.rows[id].id == id
    {
      RowIsNamed(cfg, None, swept, id);
    }
    InStateMeans(swept.d.order, swept.d.rows, Unknown);
    assert forall id :: id in UnknownIds(swept.d) <==> id in swept.d.rows && swept.d.rows[id].state == Unknown;
    assert SweptRows(w.d, swept.d);
    assert swept.d.book == w.d.book;
  }

  /** What recovery makes of one row. */
  function RecoveredRow(r: Row, booked: Option<Receipt>): Row {
    if r.state !in {Submitted, Unknown} then r
    else if booked.Some? then r.(state := Completed, receipt := booked)
    else r.(state := Failed)
  }

  /** No intent is SUBMITTED or UNKNOWN; one is COMPLETED, with the bank's receipt, exactly
      when its key is booked; what was not in doubt is as it was, and the book too. */
  ghost predicate AllSettled(d: Durable, d': Durable) {
    && d'.book == d.book && d'.rows.Keys == d.rows.Keys
    && (forall id | id in d.rows :: d'.rows[id] == RecoveredRow(d.rows[id], Lookup(d.book, id)))
    && (forall id | id in d'.rows :: d'.rows[id].state !in {Submitted, Unknown})
    && (forall id :: id in d'.book <==> id in d'.rows && d'.rows[id].state == Completed)
    && (forall id | id in d'.book :: d'.rows[id].receipt == Some(d'.book[id]))
  }

  lemma OneRecovered(d: Durable, swept: Durable, d': Durable, ids: seq<Id>, id: Id)
    requires SweptRows(d, swept) && swept.book == d.book && StoredAsBooked(d, id)
    requires forall i :: i in ids <==> i in swept.rows && swept.rows[i].state == Unknown
    requires Asked(swept, d', ids)
    ensures id in d.rows ==> id in d'.rows && d'.rows[id] == RecoveredRow(d.rows[id], Lookup(d.book, id))
  {
    if id in d.rows {
      assert id in swept.rows.Keys;
      var r, r' := d.rows[id], swept.rows[id];
      assert r' == if r.state == Submitted then r.(state := Unknown) else r;
      assert d'.rows[id] == if r'.state == Unknown then ReconciledRow(r', Lookup(d.book, id)) else r';
    }
  }

  lemma OneSettled(d: Durable, d': Durable, id: Id)
    requires d'.book == d.book && d'.rows.Keys == d.rows.Keys && StoredAsBooked(d, id)
    requires id in d.rows ==> id in d'.rows && d'.rows[id] == RecoveredRow(d.rows[id], Lookup(d.book, id))
    ensures id in d'.rows ==> d'.rows[id].state !in {Submitted, Unknown}
    ensures id in d'.book <==> id in d'.rows && d'.rows[id].state == Completed
    ensures id in d'.book ==> d'.rows[id].receipt == Some(d'.book[id])
  {
    assert id in d'.rows ==> id in d.rows;
  }

  lemma AskedIsSettled(d: Durable, swept: Durable, d': Durable, ids: seq<Id>)
    requires SweptRows(d, swept) && swept.book == d.book
    requires forall id :: id in ids <==> id in swept.rows && swept.rows[id].state == Unknown
    requires Asked(swept, d', ids)
    requires forall id :: StoredAsBooked(d, id)
    ensures AllSettled(d, d')
  {
    assert d'.book == d.book && d'.rows.Keys == d.rows.Keys;
    hide RecoveredRow, StoredAsBooked;
    forall id
      ensures id in d.rows ==> d'.rows[id] == RecoveredRow(d.rows[id], Lookup(d.book, id))
      ensures id in d'.rows ==> d'.rows[id].state !in {Submitted, Unknown}
      ensures id in d'.book <==> id in d'.rows && d'.rows[id].state == Completed
      ensures id in d'.book ==> d'.rows[id].receipt == Some(d'.book[id])
    {
      OneRecovered(d, swept, d', ids, id);
      OneSettled(d, d', id);
    }
  }

  /** After any run, whatever crashed in it, the recovery steps are a run of the system and
      settle everything. */
  lemma RecoverySettlesEverything(cfg: Config, steps: seq<Step>)
    requires ValidRun(cfg, None, steps)
    ensures var w := Run(cfg, steps);
      var swept := Next(cfg, w, Done(SweepOp)).d;
      && (forall id | id in UnknownIds(swept) :: id in swept.rows)
      && ValidRun(cfg, None, steps + RecoverySteps(cfg, w))
      && AllSettled(w.d, Run(cfg, steps + RecoverySteps(cfg, w)).d)
  {
    hide Run, ValidRun, Next, UnknownIds, Asked, SweptRows, StoredAsBooked, AllSettled;
    var w, swept := Run(cfg, steps), Next(cfg, Run(cfg, steps), Done(SweepOp)).d;
    SweptRun(cfg, steps);
    var ids := UnknownIds(swept);
    AskAll(cfg, steps + [Done(SweepOp)], ids, |ids|);
    assert Asking(swept, ids)[..|ids|] == Asking(swept, ids) && ids[..|ids|] == ids;
    assert steps + RecoverySteps(cfg, w) == steps + [Done(SweepOp)] + Asking(swept, ids);
    forall id
      ensures StoredAsBooked(w.d, id)
    {
      StateAgreesWithBook(cfg, steps, id);
    }
    AskedIsSettled(w.d, swept, Run(cfg, steps + RecoverySteps(cfg, w)).d, ids);
  }
}
