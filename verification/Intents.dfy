/** One intent's share of the durable state, and the invariant every single write of
    the plane keeps on it. Nothing here looks at a whole run; `Serial` does. */
module Intents {
  import opened Actions
  import opened Policy
  import opened Machine
  import opened Bank
  import opened Plane
  import opened Audit

  /** The stored row, what the trail proves, and the bank's entry under the key. */
  datatype View = View(row: Option<Row>, audit: Audit, booked: Option<Receipt>)

  function ViewOf(secret: string, d: Durable, id: Id): View {
    View(Lookup(d.rows, id), AuditOf(secret, Trail(d.ledger, id)), Lookup(d.book, id))
  }

  function ApplyV(secret: string, v: View, w: Write): View {
    match w
    case Append(_, entry) => v.(audit := Observe(secret, v.audit, entry))
    case Put(row) => v.(row := Some(row))
    case File(_, receipt) => if v.booked.Some? then v else v.(booked := Some(receipt))
  }

  /** A write shows in its own intent's view and in no other. */
  lemma WriteIsLocal(secret: string, d: Durable, w: Write, id: Id)
    ensures ViewOf(secret, Apply(d, w), id)
         == if Subject(w) == id then ApplyV(secret, ViewOf(secret, d, id), w) else ViewOf(secret, d, id)
  {
    if w.Append? {
      TrailAppend(d.ledger, Event(w.id, w.entry), id);
      AuditAppend(secret, Trail(d.ledger, id), w.entry);
    }
  }

  // ---------------------------------------------------------------- the invariant

  /** What is assumed of the clock. `AnyClock` is nothing. Under `Steady` readings never
      go back, two readings of one operation are at most `slack` apart, and `now` is the
      latest reading so far. */
  datatype Timing = AnyClock | Steady(slack: int, now: Instant)

  /** `drawn` is the one token the operation under way may issue. */
  datatype Env = Env(cfg: Config, timing: Timing, drawn: Option<Id>)

  const DAY_START: int := NIGHT_END_HOUR * MICROS_PER_HOUR
  const DAY_END: int := NIGHT_START_HOUR * MICROS_PER_HOUR

  /** Sao Paulo time lies in [06:00, 20:00 + late). */
  ghost predicate Daylight(t: Instant, late: int) {
    DAY_START <= TimeOfDay(t) < DAY_END + late
  }

  /** Limits every action a token was issued for respects, whatever the clock did. */
  ghost predicate WithinLimits(action: CreatePix, ctx: Context) {
    && action.amount <= HARD_LIMIT
    && Sufficient(action, ctx.assurance)
  }

  ghost predicate IssuedByDay(timing: Timing, action: CreatePix, issuedAt: Instant) {
    timing.Steady? ==>
      && issuedAt <= timing.now
      && (action.amount > NIGHT_LIMIT ==> Daylight(issuedAt, timing.slack))
  }

  ghost predicate TokenGood(env: Env, r: Row, a: Audit) {
    && (r.token.Some? <==> r.digest.Some?)
    && (r.token.Some? <==> r.issuedAt.Some?)
    && (r.token.Some? ==>
      && (r.token.value, r.digest.value) in a.issued
      && r.digest.value.secret == env.cfg.secret
      && WithinLimits(r.digest.value.action, r.context)
      && IssuedByDay(env.timing, r.digest.value.action, r.issuedAt.value))
  }

  /** States a row can only be in once its own principal consented. */
  predicate PastConsent(s: State) {
    s in {Authorized, Submitted, Unknown, Completed, Failed}
  }

  /** The row's own consent, to its token's action, is among these. */
  predicate Consenting(r: Row, given: set<Consent>) {
    && r.token.Some? && r.confirmedAt.Some? && r.digest.Some?
    && ConsentIn(r) in given
  }

  function ConsentIn(r: Row): Consent
    requires r.token.Some? && r.confirmedAt.Some? && r.digest.Some?
  {
    Consent(r.token.value, r.confirmedAt.value, r.digest.value.action)
  }

  predicate BeforeToken(s: State) {
    s in {Created, Validated, AwaitingStepUp}
  }

  ghost predicate StateGood(r: Row, a: Audit) {
    && r.state !in {Pending, Reversed}
    && (BeforeToken(r.state) ==> r.token.None?)
    && (r.state == AwaitingConfirmation ==> r.token.Some?)
    && (PastConsent(r.state) ==> Consenting(r, a.confirmed))
    && (r.state == Completed <==> r.receipt.Some?)
    && (r.state == Created || r.state in a.reached)
    && a.lawful
    && a.stepUps <= 1
    && (r.state == Created ==> a.stepUps == 0)
    && (a.approved == Some(HighRisk) ==> r.context.assurance == Strong)
  }

  predicate MatchesAction(receipt: Receipt, action: CreatePix) {
    receipt.amount == action.amount && receipt.recipient == action.recipient
  }

  /** The stored state agrees with the bank's book. */
  ghost predicate Agrees(r: Row, a: Audit, booked: Option<Receipt>) {
    && (booked.Some? ==>
      && r.state in {Submitted, Unknown, Completed}
      && Consenting(r, a.requested)
      && MatchesAction(booked.value, r.digest.value.action))
    && (r.state == Completed ==> booked.Some? && r.receipt == booked)
  }

  ghost predicate RowGood(env: Env, id: Id, r: Row, a: Audit, booked: Option<Receipt>) {
    && r.id == id
    && a.owner == Some(OwnerOf(r)) && a.openers == {OwnerOf(r)}
    && TokenGood(env, r, a)
    && StateGood(r, a)
    && Agrees(r, a, booked)
  }

  ghost predicate Good(env: Env, id: Id, v: View) {
    if v.row.None? then v.booked.None? else RowGood(env, id, v.row.value, v.audit, v.booked)
  }

  // ---------------------------------------------------------------- progress

  /** Hops an intent can still make. The one cycle of the table, VALIDATED to
      AWAITING_STEP_UP and back, is broken by the assurance the step-up leaves. */
  function HopsLeft(r: Row): nat {
    match r.state
    case Created => 8
    case Validated => if r.context.assurance == Strong then 5 else 7
    case AwaitingStepUp => 6
    case AwaitingConfirmation => 4
    case Authorized => 3
    case Submitted => 2
    case Pending => 1
    case Unknown => 1
    case _ => 0
  }

  /** What one write may do to a view: money, consent, owner and receipts only ever
      accumulate, a change of state spends a hop, a token is issued once, and the action
      stays as it is. */
  ghost predicate Progress(env: Env, v: View, v': View) {
    && Accumulates(v, v')
    && (v.row.None? && v'.row.Some? ==> v'.row.value.state == Created)
    && (v.row.Some? ==> v'.row.Some? && RowProgress(v.row.value, v'.row.value) && SameAction(v.row.value, v'.row.value))
    && TokenFrom(env.drawn, v, v')
  }

  predicate SameAction(r: Row, r': Row) {
    r'.action == r.action
  }

  ghost predicate Accumulates(v: View, v': View) {
    && (v.booked.Some? ==> v'.booked == v.booked)
    && v.audit.issued <= v'.audit.issued
    && v.audit.confirmed <= v'.audit.confirmed
    && v.audit.authorized <= v'.audit.authorized
    && v.audit.requested <= v'.audit.requested
    && (v.audit.owner.Some? ==> v'.audit.owner == v.audit.owner)
  }

  ghost predicate RowProgress(r: Row, r': Row) {
    && OwnerOf(r') == OwnerOf(r)
    && (r'.context == r.context || r'.context == r.context.(assurance := Strong))
    && HopsLeft(r') <= HopsLeft(r)
    && (r'.state != r.state ==> HopsLeft(r') < HopsLeft(r))
    && (r.token.Some? ==> r'.token == r.token && r'.digest == r.digest && r'.issuedAt == r.issuedAt)
  }

  function TokenOf(v: View): Option<Id> {
    if v.row.Some? then v.row.value.token else None
  }

  ghost predicate TokenFrom(drawn: Option<Id>, v: View, v': View) {
    TokenOf(v').Some? ==> TokenOf(v') == TokenOf(v) || TokenOf(v') == drawn
  }

  /** What any number of writes may do. */
  ghost predicate Advanced(env: Env, v: View, v': View) {
    && Accumulates(v, v')
    && (v.row.Some? ==> v'.row.Some? && RowProgress(v.row.value, v'.row.value) && SameAction(v.row.value, v'.row.value))
    && TokenFrom(env.drawn, v, v')
  }

  /** Replaying the trail's transitions from CREATED arrives at the stored state. Only
      true between operations: a crash can leave the ledger one hop ahead of the store. */
  ghost predicate InStep(v: View) {
    v.audit.replay == Some(if v.row.Some? then v.row.value.state else Created)
  }

  /** Every prefix of `ws` leaves intent `id` good, and every write makes progress;
      writes to other intents are skipped. */
  ghost predicate Safe(env: Env, id: Id, v: View, ws: seq<Write>)
    decreases |ws|
  {
    && Good(env, id, v)
    && (ws != [] ==>
      if Subject(ws[0]) != id then Safe(env, id, v, ws[1..])
      else
        var v' := ApplyV(env.cfg.secret, v, ws[0]);
        Progress(env, v, v') && Safe(env, id, v', ws[1..]))
  }

  function RunV(secret: string, id: Id, v: View, ws: seq<Write>): View
    decreases |ws|
  {
    if ws == [] then v
    else RunV(secret, id, if Subject(ws[0]) == id then ApplyV(secret, v, ws[0]) else v, ws[1..])
  }

  lemma {:induction false} RunIsLocal(secret: string, d: Durable, ws: seq<Write>, id: Id)
    ensures ViewOf(secret, ApplyAll(d, ws), id) == RunV(secret, id, ViewOf(secret, d, id), ws)
    decreases |ws|
  {
    if ws != [] {
      WriteIsLocal(secret, d, ws[0], id);
      RunIsLocal(secret, Apply(d, ws[0]), ws[1..], id);
    }
  }

  lemma {:induction false} SafeConcat(env: Env, id: Id, v: View, ws: seq<Write>, vs: seq<Write>)
    requires Safe(env, id, v, ws)
    requires Safe(env, id, RunV(env.cfg.secret, id, v, ws), vs)
    ensures Safe(env, id, v, ws + vs)
    ensures RunV(env.cfg.secret, id, v, ws + vs) == RunV(env.cfg.secret, id, RunV(env.cfg.secret, id, v, ws), vs)
    decreases |ws|
  {
    if ws == [] {
      assert ws + vs == vs;
    } else {
      assert (ws + vs)[1..] == ws[1..] + vs;
      var v' := if Subject(ws[0]) == id then ApplyV(env.cfg.secret, v, ws[0]) else v;
      SafeConcat(env, id, v', ws[1..], vs);
    }
  }

  lemma AdvancedInTwo(env: Env, v: View, v1: View, v2: View)
    requires Progress(env, v, v1) && Advanced(env, v1, v2)
    ensures Advanced(env, v, v2)
  {
  }

  lemma AdvancedByNothing(env: Env, v: View)
    ensures Advanced(env, v, v)
  {
  }

  /** A safe script stopped anywhere leaves the intent good, and only ever advances it. */
  lemma {:induction false} SafePrefix(env: Env, id: Id, v: View, ws: seq<Write>, k: nat)
    requires Safe(env, id, v, ws) && k <= |ws|
    ensures Good(env, id, RunV(env.cfg.secret, id, v, ws[..k]))
    ensures Advanced(env, v, RunV(env.cfg.secret, id, v, ws[..k]))
    decreases |ws|
  {
    hide Good, Progress, Advanced, ApplyV;
    if k == 0 {
      AdvancedByNothing(env, v);
    } else {
      var v' := if Subject(ws[0]) == id then ApplyV(env.cfg.secret, v, ws[0]) else v;
      assert ws[..k][1..] == ws[1..][..k - 1];
      SafePrefix(env, id, v', ws[1..], k - 1);
      if Subject(ws[0]) == id {
        AdvancedInTwo(env, v, v', RunV(env.cfg.secret, id, v, ws[..k]));
      }
    }
  }

  lemma {:induction false} SafeForeign(env: Env, id: Id, v: View, ws: seq<Write>)
    requires Good(env, id, v)
    requires forall w | w in ws :: Subject(w) != id
    ensures Safe(env, id, v, ws) && RunV(env.cfg.secret, id, v, ws) == v
    decreases |ws|
  {
    if ws != [] {
      assert forall w | w in ws[1..] :: w in ws;
      SafeForeign(env, id, v, ws[1..]);
    }
  }

  /** From view `v`, the writes `ws` are safe and lead to `v'`. */
  ghost predicate Takes(env: Env, id: Id, v: View, ws: seq<Write>, v': View) {
    Safe(env, id, v, ws) && RunV(env.cfg.secret, id, v, ws) == v'
  }

  lemma TakesConcat(env: Env, id: Id, v: View, ws: seq<Write>, v1: View, vs: seq<Write>, v2: View)
    requires Takes(env, id, v, ws, v1) && Takes(env, id, v1, vs, v2)
    ensures Takes(env, id, v, ws + vs, v2)
  {
    SafeConcat(env, id, v, ws, vs);
  }

  lemma TakesEnd(env: Env, id: Id, v: View, ws: seq<Write>, v': View)
    requires Takes(env, id, v, ws, v')
    ensures Good(env, id, v')
  {
    SafePrefix(env, id, v, ws, |ws|);
    assert ws[..|ws|] == ws;
  }

  lemma TakesOne(env: Env, id: Id, v: View, w: Write, v': View)
    requires Subject(w) == id && v' == ApplyV(env.cfg.secret, v, w)
    requires Good(env, id, v) && Good(env, id, v') && Progress(env, v, v')
    ensures Takes(env, id, v, [w], v')
  {
    assert [w][1..] == [];
  }

  /** An event no audit question looks at. */
  lemma TakesNote(env: Env, id: Id, v: View, e: Entry)
    requires Good(env, id, v) && Observe(env.cfg.secret, v.audit, e) == v.audit
    ensures Takes(env, id, v, [Append(id, e)], v)
  {
    TakesOne(env, id, v, Append(id, e), v);
  }

  /** Saving a row again. */
  lemma TakesSave(env: Env, id: Id, v: View)
    requires Good(env, id, v) && v.row.Some?
    ensures Takes(env, id, v, [Put(v.row.value)], v)
  {
    TakesOne(env, id, v, Put(v.row.value), v);
  }

  /** The view after the ledger row of a hop, before the row is saved. */
  function HopLogged(v: View, r: Row, hop: Hop): View
    requires CanMove(r, hop)
  {
    var issues := hop == AwaitConfirmation;
    v.(audit := ObserveHop(v.audit, r.state, hop, Moved(r, hop).state,
                           if issues then r.token else None, if issues then r.digest else None))
  }

  function Hopped(v: View, r: Row, hop: Hop): View
    requires CanMove(r, hop)
  {
    HopLogged(v, r, hop).(row := Some(Moved(r, hop)))
  }

  lemma TakesHop(env: Env, v: View, r: Row, hop: Hop)
    requires CanMove(r, hop)
    requires Good(env, r.id, v)
    requires Good(env, r.id, HopLogged(v, r, hop)) && Progress(env, v, HopLogged(v, r, hop))
    requires Good(env, r.id, Hopped(v, r, hop)) && Progress(env, HopLogged(v, r, hop), Hopped(v, r, hop))
    ensures Takes(env, r.id, v, Move(r, hop), Hopped(v, r, hop))
  {
    var ws := Move(r, hop);
    TakesOne(env, r.id, v, ws[0], HopLogged(v, r, hop));
    TakesOne(env, r.id, HopLogged(v, r, hop), ws[1], Hopped(v, r, hop));
    TakesConcat(env, r.id, v, [ws[0]], HopLogged(v, r, hop), [ws[1]], Hopped(v, r, hop));
    assert [ws[0]] + [ws[1]] == ws;
  }
}
