/** What interleaving breaks without a lock. From every reachable state in which a
    confirmation would be accepted, workers on stale copies can end with a paid intent
    stored as CANCELLED, and can debit one in-memory balance twice for the one row they
    book; under the locks of `Locks` and `Payers` neither can happen. */
module Races {
  import opened Actions
  import opened Policy
  import opened Machine
  import opened Bank
  import opened Plane
  import opened Workers
  import opened Locks
  import opened Payers
  import G = Guarantees

  function RunFrom(cfg: Config, s: Shared, ticks: seq<Tick>): Shared
    decreases |ticks|
  {
    if ticks == [] then s else RunFrom(cfg, Ticked(cfg, s, ticks[0]), ticks[1..])
  }

  lemma {:induction false} RunFromConcat(cfg: Config, s: Shared, ticks: seq<Tick>, more: seq<Tick>)
    ensures RunFrom(cfg, s, ticks + more) == RunFrom(cfg, RunFrom(cfg, s, ticks), more)
    decreases |ticks|
  {
    if ticks == [] {
      assert ticks + more == more;
    } else {
      assert (ticks + more)[1..] == ticks[1..] + more;
      RunFromConcat(cfg, Ticked(cfg, s, ticks[0]), ticks[1..], more);
    }
  }

  lemma {:induction false} InterleaveMore(cfg: Config, ticks: seq<Tick>, more: seq<Tick>)
    ensures Interleave(cfg, ticks + more) == RunFrom(cfg, Interleave(cfg, ticks), more)
    decreases |more|
  {
    if more == [] {
      assert ticks + more == ticks;
    } else {
      var first := ticks + [more[0]];
      assert ticks + more == first + more[1..];
      assert first[..|first| - 1] == ticks;
      InterleaveMore(cfg, first, more[1..]);
    }
  }

  function Turns(worker: nat, n: nat): seq<Tick> {
    seq(n, _ => Turn(worker))
  }

  /** A worker left alone with durable writes to make makes them. */
  lemma {:induction false} DrainWrites(cfg: Config, s: Shared, worker: nat, ws: seq<Write>, tail: seq<Job>)
    requires worker in s.workers && s.workers[worker].todo == Dos(ws) + tail
    ensures RunFrom(cfg, s, Turns(worker, |ws|)) == WithTodo(s.(d := ApplyAll(s.d, ws)), worker, tail)
    decreases |ws|
  {
    if ws == [] {
      assert Dos(ws) + tail == tail;
      assert s.workers[worker := s.workers[worker].(todo := tail)] == s.workers;
    } else {
      var s1 := Ticked(cfg, s, Turn(worker));
      assert (Dos(ws) + tail)[1..] == Dos(ws[1..]) + tail;
      assert Turns(worker, |ws|)[1..] == Turns(worker, |ws[1..]|);
      DrainWrites(cfg, s1, worker, ws[1..], tail);
    }
  }

  lemma {:induction false} BookOnlyGrows(d: Durable, ws: seq<Write>, id: Id)
    requires id in d.book
    ensures id in ApplyAll(d, ws).book && ApplyAll(d, ws).book[id] == d.book[id]
    decreases |ws|
  {
    if ws != [] {
      BookOnlyGrows(Apply(d, ws[0]), ws[1..], id);
    }
  }

  lemma TwoTicks(cfg: Config, s: Shared, m: Tick, n: Tick)
    ensures RunFrom(cfg, s, [m, n]) == Ticked(cfg, Ticked(cfg, s, m), n)
  {
    assert [m, n][1..] == [n] && [n][1..] == [];
    assert RunFrom(cfg, Ticked(cfg, s, m), [n]) == Ticked(cfg, Ticked(cfg, s, m), n);
  }

  predicate Idle(s: Shared, worker: nat) {
    worker in s.workers ==> s.workers[worker].todo == []
  }

  /** Two idle workers, and a confirmation the plane and the bank would both accept of an
      intent not paid yet. */
  ghost predicate RaceReady(cfg: Config, s: Shared, a: nat, b: nat, bank: nat, op: Op) {
    && a != b && Idle(s, a) && Idle(s, b)
    && Accepted(cfg, s.d, op)
    && ByToken(s.d, op.token).value.id !in s.d.book
    && Refusal(cfg.contacts, MemoryIn(cfg, s, bank), ByToken(s.d, op.token).value.action).None?
  }

  lemma OneTurn(cfg: Config, s: Shared, a: nat, n: nat)
    requires n > 0
    ensures RunFrom(cfg, s, Turns(a, n)) == RunFrom(cfg, Ticked(cfg, s, Turn(a)), Turns(a, n - 1))
  {
    assert Turns(a, n)[0] == Turn(a);
    assert Turns(a, n)[1..] == Turns(a, n - 1);
  }

  lemma FourTurns(cfg: Config, s: Shared, a: nat)
    ensures RunFrom(cfg, s, Turns(a, 4))
         == Ticked(cfg, Ticked(cfg, Ticked(cfg, Ticked(cfg, s, Turn(a)), Turn(a)), Turn(a)), Turn(a))
  {
    OneTurn(cfg, s, a, 4);
    var s1 := Ticked(cfg, s, Turn(a));
    OneTurn(cfg, s1, a, 3);
    var s2 := Ticked(cfg, s1, Turn(a));
    OneTurn(cfg, s2, a, 2);
    OneTurn(cfg, Ticked(cfg, s2, Turn(a)), a, 1);
  }

  /** The bank call run to the filed receipt with nobody in between. */
  lemma CallAlone(cfg: Config, s: Shared, a: nat, r: InFlight, payment: Id)
    requires a in s.workers && s.workers[a].todo == [Call(r, payment)] && r.id !in s.d.book
    requires Refusal(cfg.contacts, MemoryIn(cfg, s, s.workers[a].bank), r.action).None?
    ensures var s' := RunFrom(cfg, s, Turns(a, 4));
      && s'.d == Apply(s.d, File(r.id, Receipt(payment, r.action.amount, r.action.recipient)))
      && forall w | w in s.workers && w != a :: w in s'.workers && s'.workers[w] == s.workers[w]
  {
    FourTurns(cfg, s, a);
    var s1 := Ticked(cfg, s, Turn(a));
    assert s1 == WithTodo(s, a, [Check(r, payment)]);
    var s2 := Ticked(cfg, s1, Turn(a));
    assert s2.d == s.d && s2.workers[a].todo == [Debit(r, payment)];
    var s3 := Ticked(cfg, s2, Turn(a));
    assert s3.d == s.d;
  }

  lemma BothBegin(cfg: Config, s: Shared, a: nat, b: nat, bank: nat, op: Op, op': Op, seen: BankMemory)
    returns (s': Shared)
    requires a != b && Idle(s, a) && Idle(s, b) && !Opening(op) && !Opening(op')
    ensures s' == RunFrom(cfg, s, [Begin(a, bank, op, seen), Begin(b, bank, op', seen)])
    ensures s'.d == s.d && s'.banks == s.banks && a in s'.workers && b in s'.workers
    ensures s'.workers[a] == Worker(bank, Plan(cfg, s.d, op, seen))
    ensures s'.workers[b] == Worker(bank, Plan(cfg, s.d, op', seen))
  {
    s' := Ticked(cfg, Ticked(cfg, s, Begin(a, bank, op, seen)), Begin(b, bank, op', seen));
    TwoTicks(cfg, s, Begin(a, bank, op, seen), Begin(b, bank, op', seen));
  }

  /** A cancellation planned on a copy of the row writes what it planned. */
  lemma StaleCancel(cfg: Config, s: Shared, b: nat, r: Row)
    requires r.state == AwaitingConfirmation && r.id in s.d.book
    requires b in s.workers && s.workers[b].todo == Dos(Move(r, Cancel) + [Put(Moved(r, Cancel))])
    ensures var d := RunFrom(cfg, s, Turns(b, 3)).d;
      r.id in d.book && r.id in d.rows && d.rows[r.id].state == Cancelled
  {
    var ws := Move(r, Cancel) + [Put(Moved(r, Cancel))];
    assert Dos(ws) + [] == Dos(ws);
    DrainWrites(cfg, s, b, ws, []);
    BookOnlyGrows(s.d, ws, r.id);
    LastPutWins(s.d, Move(r, Cancel), Moved(r, Cancel));
  }

  lemma InTurn(cfg: Config, s: Shared, p: seq<Tick>, q: seq<Tick>, u: seq<Tick>, v: seq<Tick>)
    ensures RunFrom(cfg, s, p + (q + (u + v))) == RunFrom(cfg, RunFrom(cfg, RunFrom(cfg, RunFrom(cfg, s, p), q), u), v)
  {
    RunFromConcat(cfg, s, p, q + (u + v));
    var s1 := RunFrom(cfg, s, p);
    RunFromConcat(cfg, s1, q, u + v);
    RunFromConcat(cfg, RunFrom(cfg, s1, q), u, v);
  }

  lemma CancelOverPayment(cfg: Config, s: Shared, a: nat, b: nat, bank: nat, op: Op, seen: BankMemory)
    returns (more: seq<Tick>)
    requires RaceReady(cfg, s, a, b, bank, op)
    ensures var d, id := RunFrom(cfg, s, more).d, ByToken(s.d, op.token).value.id;
      id in d.book && id in d.rows && d.rows[id].state == Cancelled
  {
    var r, cancel := ByToken(s.d, op.token).value, CancelOp(op.ctx, op.token);
    var s1 := BothBegin(cfg, s, a, b, bank, op, cancel, seen);
    assert Plan(cfg, s.d, cancel, seen) == Dos(Move(r, Cancel) + [Put(Moved(r, Cancel))]);
    var s2 := AfterPaying(cfg, s1, a, b, r, op);
    StaleCancel(cfg, s2, b, r);
    var begin := [Begin(a, bank, op, seen), Begin(b, bank, cancel, seen)];
    var pay := Turns(a, |ConsentScript(r, op.ctx, op.token, op.t2)|) + Turns(a, 4);
    InTurn(cfg, s, begin, pay, Turns(b, 3), []);
    more := begin + (pay + (Turns(b, 3) + []));
  }

  /** Wherever a confirmation would be accepted, a cancellation that read the row before
      it and writes after it leaves the intent CANCELLED in the store and paid in the
      book. No agreement of state and book holds among concurrent workers. */
  lemma RacingCancelHidesThePayment(cfg: Config, ticks: seq<Tick>, a: nat, b: nat, bank: nat, op: Op, seen: BankMemory)
    requires RaceReady(cfg, Interleave(cfg, ticks), a, b, bank, op)
    ensures var id := ByToken(Interleave(cfg, ticks).d, op.token).value.id;
      exists more :: var d := Interleave(cfg, ticks + more).d;
        id in d.book && id in d.rows && d.rows[id].state == Cancelled
  {
    var more := CancelOverPayment(cfg, Interleave(cfg, ticks), a, b, bank, op, seen);
    InterleaveMore(cfg, ticks, more);
  }

  lemma AfterPaying(cfg: Config, s: Shared, a: nat, b: nat, r: Row, op: Op) returns (s': Shared)
    requires op.ConfirmOp? && r.state == AwaitingConfirmation
    requires a != b && a in s.workers && b in s.workers
    requires s.workers[a].todo
        == Dos(ConsentScript(r, op.ctx, op.token, op.t2)) + [Call(SubmittedRow(r, op.ctx, op.t2), op.payment)]
    requires r.id !in s.d.book && Refusal(cfg.contacts, MemoryIn(cfg, s, s.workers[a].bank), r.action).None?
    ensures var consent := ConsentScript(r, op.ctx, op.token, op.t2);
      s' == RunFrom(cfg, s, Turns(a, |consent|) + Turns(a, 4))
    ensures r.id in s'.d.book && b in s'.workers && s'.workers[b] == s.workers[b]
  {
    var consent, submitted := ConsentScript(r, op.ctx, op.token, op.t2), SubmittedRow(r, op.ctx, op.t2);
    DrainWrites(cfg, s, a, consent, [Call(submitted, op.payment)]);
    var s1 := RunFrom(cfg, s, Turns(a, |consent|));
    ConsentFilesNothing(s.d, r, op.ctx, op.token, op.t2);
    CallAlone(cfg, s1, a, submitted, op.payment);
    s' := RunFrom(cfg, s1, Turns(a, 4));
    RunFromConcat(cfg, s, Turns(a, |consent|), Turns(a, 4));
  }

  // ---------------------------------------------------------------- one row, two debits

  // Turn and turn about: both call, both look at the balance, both debit, one files.

  function BalanceFor(memory: BankMemory, action: CreatePix): int {
    if action.source in memory.accounts then memory.accounts[action.source] else 0
  }

  lemma BothReachTheDebit(cfg: Config, s: Shared, a: nat, b: nat, bank: nat, ra: InFlight, rb: InFlight, pa: Id,
                          pb: Id) returns (s': Shared)
    requires a != b && a in s.workers && b in s.workers && ra.id !in s.d.book && rb.id == ra.id
        && rb.action == ra.action
    requires s.workers[a] == Worker(bank, [Call(ra, pa)]) && s.workers[b] == Worker(bank, [Call(rb, pb)])
    requires Refusal(cfg.contacts, MemoryIn(cfg, s, bank), ra.action).None?
    ensures s' == RunFrom(cfg, s, [Turn(a), Turn(b)] + [Turn(a), Turn(b)])
    ensures s'.d == s.d && s'.banks == s.banks && a in s'.workers && b in s'.workers
    ensures s'.workers[a] == Worker(bank, [Debit(ra, pa)]) && s'.workers[b] == Worker(bank, [Debit(rb, pb)])
  {
    var s1 := Ticked(cfg, s, Turn(a));
    assert s1.workers[a] == Worker(bank, [Check(ra, pa)]) && s1.d == s.d && s1.banks == s.banks;
    var s2 := Ticked(cfg, s1, Turn(b));
    assert s2.workers[b] == Worker(bank, [Check(rb, pb)]) && s2.workers[a] == s1.workers[a];
    TwoTicks(cfg, s, Turn(a), Turn(b));
    var s3 := Ticked(cfg, s2, Turn(a));
    assert s3.workers[a] == Worker(bank, [Debit(ra, pa)]) && s3.workers[b] == s2.workers[b];
    s' := Ticked(cfg, s3, Turn(b));
    TwoTicks(cfg, s2, Turn(a), Turn(b));
    RunFromConcat(cfg, s, [Turn(a), Turn(b)], [Turn(a), Turn(b)]);
  }

  lemma BothDebit(cfg: Config, s: Shared, a: nat, b: nat, bank: nat, ra: InFlight, rb: InFlight, pa: Id, pb: Id)
    returns (s': Shared)
    requires a != b && a in s.workers && b in s.workers && ra.id !in s.d.book && rb.id == ra.id
        && rb.action == ra.action
    requires s.workers[a] == Worker(bank, [Debit(ra, pa)]) && s.workers[b] == Worker(bank, [Debit(rb, pb)])
    requires ra.action.source in MemoryIn(cfg, s, bank).accounts
    ensures s' == RunFrom(cfg, s, [Turn(a), Turn(b)] + Turns(a, 1))
    ensures ra.id in s'.d.book && s'.d.book.Keys == s.d.book.Keys + {ra.id}
    ensures BalanceFor(MemoryIn(cfg, s', bank), ra.action)
        == BalanceFor(MemoryIn(cfg, s, bank), ra.action) - 2 * ra.action.amount
    ensures ra.action.source in MemoryIn(cfg, s', bank).accounts
    ensures DebitsOf(s', bank) == DebitsOf(s, bank) + [PixCall(ra.id, ra.action, pa), PixCall(ra.id, ra.action, pb)]
  {
    var receipt := Receipt(pa, ra.action.amount, ra.action.recipient);
    var s1 := Ticked(cfg, s, Turn(a));
    assert s1.workers[a].todo == [Do(File(ra.id, receipt)), Reread(ra, receipt)] && s1.d == s.d;
    assert MemoryIn(cfg, s1, bank) == Debited(MemoryIn(cfg, s, bank), ra.action);
    assert DebitsOf(s1, bank) == DebitsOf(s, bank) + [PixCall(ra.id, ra.action, pa)];
    var s2 := Ticked(cfg, s1, Turn(b));
    assert s2.workers[a] == s1.workers[a] && s2.d == s.d;
    assert MemoryIn(cfg, s2, bank) == Debited(MemoryIn(cfg, s1, bank), ra.action);
    TwoTicks(cfg, s, Turn(a), Turn(b));
    s' := Ticked(cfg, s2, Turn(a));
    OneTurn(cfg, s2, a, 1);
    assert Turns(a, 0) == [];
    RunFromConcat(cfg, s, [Turn(a), Turn(b)], Turns(a, 1));
  }

  lemma BothConsent(cfg: Config, s: Shared, a: nat, b: nat, r: Row, op: Op, op': Op) returns (s': Shared)
    requires op.ConfirmOp? && op'.ConfirmOp? && r.state == AwaitingConfirmation
    requires a != b && a in s.workers && b in s.workers
    requires s.workers[a].todo
        == Dos(ConsentScript(r, op.ctx, op.token, op.t2)) + [Call(SubmittedRow(r, op.ctx, op.t2), op.payment)]
    requires s.workers[b].todo
        == Dos(ConsentScript(r, op'.ctx, op'.token, op'.t2)) + [Call(SubmittedRow(r, op'.ctx, op'.t2), op'.payment)]
    ensures s' == RunFrom(cfg, s, Turns(a, |ConsentScript(r, op.ctx, op.token, op.t2)|)
                          + Turns(b, |ConsentScript(r, op'.ctx, op'.token, op'.t2)|))
    ensures s'.d.book == s.d.book && s'.banks == s.banks && a in s'.workers && b in s'.workers
    ensures s'.workers[a] == s.workers[a].(todo := [Call(SubmittedRow(r, op.ctx, op.t2), op.payment)])
    ensures s'.workers[b] == s.workers[b].(todo := [Call(SubmittedRow(r, op'.ctx, op'.t2), op'.payment)])
  {
    var first, second := ConsentScript(r, op.ctx, op.token, op.t2), ConsentScript(r, op'.ctx, op'.token, op'.t2);
    DrainWrites(cfg, s, a, first, [Call(SubmittedRow(r, op.ctx, op.t2), op.payment)]);
    ConsentFilesNothing(s.d, r, op.ctx, op.token, op.t2);
    var s1 := RunFrom(cfg, s, Turns(a, |first|));
    DrainWrites(cfg, s1, b, second, [Call(SubmittedRow(r, op'.ctx, op'.t2), op'.payment)]);
    ConsentFilesNothing(s1.d, r, op'.ctx, op'.token, op'.t2);
    s' := RunFrom(cfg, s1, Turns(b, |second|));
    RunFromConcat(cfg, s, Turns(a, |first|), Turns(b, |second|));
  }

  lemma SameKeyTwice(s: Shared, bank: nat, before: seq<PixCall>, one: PixCall, two: PixCall)
    requires DebitsOf(s, bank) == before + [one, two] && one.key == two.key
    ensures !Distinct(s)
  {
    var n := |before|;
    assert s.debits[bank][n].key == s.debits[bank][n + 1].key;
  }

  lemma DebitsTwice(cfg: Config, s: Shared, a: nat, b: nat, bank: nat, op: Op, other: Id, seen: BankMemory)
    returns (more: seq<Tick>)
    requires RaceReady(cfg, s, a, b, bank, op)
    ensures var s', r := RunFrom(cfg, s, more), ByToken(s.d, op.token).value;
      && s'.d.book.Keys == s.d.book.Keys + {r.id} && !Distinct(s')
      && r.action.source in MemoryIn(cfg, s', bank).accounts
      && BalanceFor(MemoryIn(cfg, s', bank), r.action)
          == BalanceFor(MemoryIn(cfg, s, bank), r.action) - 2 * r.action.amount
  {
    var r, op' := ByToken(s.d, op.token).value, op.(payment := other);
    var row := SubmittedRow(r, op.ctx, op.t2);
    var s1 := BothBegin(cfg, s, a, b, bank, op, op', seen);
    var s2 := BothConsent(cfg, s1, a, b, r, op, op');
    var s3 := BothReachTheDebit(cfg, s2, a, b, bank, row, row, op.payment, other);
    var s4 := BothDebit(cfg, s3, a, b, bank, row, row, op.payment, other);
    SameKeyTwice(s4, bank, DebitsOf(s3, bank), PixCall(r.id, r.action, op.payment), PixCall(r.id, r.action, other));
    var begin := [Begin(a, bank, op, seen), Begin(b, bank, op', seen)];
    var n := |ConsentScript(r, op.ctx, op.token, op.t2)|;
    var look, take := [Turn(a), Turn(b)] + [Turn(a), Turn(b)], [Turn(a), Turn(b)] + Turns(a, 1);
    InTurn(cfg, s, begin, Turns(a, n) + Turns(b, n), look, take);
    more := begin + ((Turns(a, n) + Turns(b, n)) + (look + take));
  }

  /** Wherever a confirmation would be accepted, two workers confirming the same token on
      one bank can take the amount from its balance twice and file one row for it. The
      balance check does not help: an account that held less than twice the amount ends
      below zero. */
  lemma RacingConfirmsDebitTwice(cfg: Config, ticks: seq<Tick>, a: nat, b: nat, bank: nat, op: Op, other: Id,
                                 seen: BankMemory)
    requires RaceReady(cfg, Interleave(cfg, ticks), a, b, bank, op)
    ensures var s, r := Interleave(cfg, ticks), ByToken(Interleave(cfg, ticks).d, op.token).value;
      exists more :: var s' := Interleave(cfg, ticks + more);
        && s'.d.book.Keys == s.d.book.Keys + {r.id}
        && BalanceFor(MemoryIn(cfg, s', bank), r.action)
            == BalanceFor(MemoryIn(cfg, s, bank), r.action) - 2 * r.action.amount
  {
    var more := DebitsTwice(cfg, Interleave(cfg, ticks), a, b, bank, op, other, seen);
    InterleaveMore(cfg, ticks, more);
  }

  // ---------------------------------------------------------------- exactly the locks

  /** Agreement of stored state and book is the lock's doing, from every locked state in
      which a confirmation would be accepted: whatever goes on from there keeping the lock
      agrees about every intent, and something that does not keep it does not agree. */
  lemma AgreementIsTheLock(cfg: Config, ticks: seq<Tick>, a: nat, b: nat, bank: nat, op: Op, seen: BankMemory)
    requires RaceReady(cfg, Interleave(cfg, ticks), a, b, bank, op)
    ensures forall more, id | Locked(cfg, ticks + more) :: G.StoredAsBooked(Interleave(cfg, ticks + more).d, id)
    ensures exists more, id :: !Locked(cfg, ticks + more) && !G.StoredAsBooked(Interleave(cfg, ticks + more).d, id)
  {
    forall more, id | Locked(cfg, ticks + more)
      ensures G.StoredAsBooked(Interleave(cfg, ticks + more).d, id)
    {
      LockedStateAgreesWithBook(cfg, ticks + more, id);
    }
    hide RaceReady, Locked;
    RacingCancelHidesThePayment(cfg, ticks, a, b, bank, op, seen);
    var id := ByToken(Interleave(cfg, ticks).d, op.token).value.id;
    var more :| var d := Interleave(cfg, ticks + more).d; id in d.book && id in d.rows && d.rows[id].state == Cancelled;
    assert !G.StoredAsBooked(Interleave(cfg, ticks + more).d, id);
    assert !Locked(cfg, ticks + more);
  }

  /** Conservation is the doing of one payer a key. */
  lemma ConservationIsTheKeyLock(cfg: Config, ticks: seq<Tick>, a: nat, b: nat, bank: nat, op: Op, other: Id,
                                 seen: BankMemory)
    requires RaceReady(cfg, Interleave(cfg, ticks), a, b, bank, op)
    ensures forall more | PayersAlone(cfg, ticks + more) :: Conserved(cfg, Interleave(cfg, ticks + more))
    ensures exists more :: !PayersAlone(cfg, ticks + more) && !Conserved(cfg, Interleave(cfg, ticks + more))
  {
    forall more | PayersAlone(cfg, ticks + more)
      ensures Conserved(cfg, Interleave(cfg, ticks + more))
    {
      MoneyIsTakenOnce(cfg, ticks + more);
    }
    var more := DebitsTwice(cfg, Interleave(cfg, ticks), a, b, bank, op, other, seen);
    InterleaveMore(cfg, ticks, more);
    hide RaceReady, PayersAlone, Distinct;
    assert !Conserved(cfg, Interleave(cfg, ticks + more));
    assert !PayersAlone(cfg, ticks + more);
  }

  /** That no balance goes below zero is the doing of one payment a bank: without it, an
      account that held less than twice the amount can. */
  lemma SolvencyIsTheBankLock(cfg: Config, ticks: seq<Tick>, a: nat, b: nat, bank: nat, op: Op, other: Id,
                              seen: BankMemory)
    requires RaceReady(cfg, Interleave(cfg, ticks), a, b, bank, op) && Solvent(OpeningMemory(cfg))
    requires var s, action := Interleave(cfg, ticks), ByToken(Interleave(cfg, ticks).d, op.token).value.action;
      BalanceFor(MemoryIn(cfg, s, bank), action) < 2 * action.amount
    ensures forall more, any | BanksAlone(cfg, ticks + more) ::
        Solvent(MemoryIn(cfg, Interleave(cfg, ticks + more), any))
    ensures exists more ::
        !BanksAlone(cfg, ticks + more) && !Solvent(MemoryIn(cfg, Interleave(cfg, ticks + more), bank))
  {
    forall more, any | BanksAlone(cfg, ticks + more)
      ensures Solvent(MemoryIn(cfg, Interleave(cfg, ticks + more), any))
    {
      NobodyGoesBelowZero(cfg, ticks + more, any);
    }
    var more := DebitsTwice(cfg, Interleave(cfg, ticks), a, b, bank, op, other, seen);
    InterleaveMore(cfg, ticks, more);
    hide RaceReady, BanksAlone, Distinct;
    var action := ByToken(Interleave(cfg, ticks).d, op.token).value.action;
    assert MemoryIn(cfg, Interleave(cfg, ticks + more), bank).accounts[action.source] < 0;
    assert !Solvent(MemoryIn(cfg, Interleave(cfg, ticks + more), bank));
    assert !BanksAlone(cfg, ticks + more);
  }

  // ---------------------------------------------------------------- such states are reached

  predicate SoloBy(ticks: seq<Tick>, a: nat) {
    forall i | 0 <= i < |ticks| :: ticks[i].Begin? ==> ticks[i].worker == a
  }

  /** One worker is never in anyone's way. */
  lemma {:induction false} SoloKeepsTheLocks(cfg: Config, ticks: seq<Tick>, a: nat)
    requires SoloBy(ticks, a)
    ensures Interleave(cfg, ticks).workers.Keys <= {a}
    ensures Locked(cfg, ticks) && PayersAlone(cfg, ticks) && BanksAlone(cfg, ticks)
    decreases |ticks|
  {
    if ticks != [] {
      var before, m := ticks[..|ticks| - 1], ticks[|ticks| - 1];
      SoloKeepsTheLocks(cfg, before, a);
      var s := Interleave(cfg, before);
      if Possible(s, m) && m.Turn? {
        TurnElsewhere(cfg, s, m.worker);
      }
      hide DoJob, Plan, Mentions, PaysFor, Paying;
    }
  }

  lemma {:induction false} OneRow(d: Durable, ws: seq<Write>, id: Id)
    requires forall w | w in ws :: Subject(w) == id
    requires (d.order == [] && d.rows == map[]) || (d.order == [id] && id in d.rows)
    ensures var d' := ApplyAll(d, ws); (d'.order == [] && d'.rows == map[]) || (d'.order == [id] && id in d'.rows)
    decreases |ws|
  {
    if ws != [] {
      assert ws[0] in ws;
      assert forall w | w in ws[1..] :: w in ws;
      OneRow(Apply(d, ws[0]), ws[1..], id);
    }
  }

  function AwaitingRow(cfg: Config, op: Op): Row
    requires op.ProposeOp? && |FindContacts(cfg.contacts, op.proposed.recipient)| == 1
  {
    var row := Proposed(op.ctx, op.proposed, op.id, FindContacts(cfg.contacts, op.proposed.recipient)[0].id);
    Issued(cfg, row, op.token, op.t2).(state := AwaitingConfirmation)
  }

  /** A proposal policy wants confirmed ends with its row saved, awaiting confirmation. */
  lemma ProposalEndsAwaiting(cfg: Config, memory: BankMemory, op: Op)
    requires op.ProposeOp? && EffectOf(cfg, EMPTY, memory, op).reply.Outcome?
    requires EffectOf(cfg, EMPTY, memory, op).reply.status == Decided(RequireConfirmation)
    ensures |FindContacts(cfg.contacts, op.proposed.recipient)| == 1
    ensures var script, r := EffectOf(cfg, EMPTY, memory, op).script, AwaitingRow(cfg, op);
      && script != [] && script[|script| - 1] == Put(r)
      && Refusal(cfg.contacts, memory, r.action).None?
  {
    hide Evaluate, RiskOf, FindContacts, HasContact;
  }

  lemma ProposalIsQuiet(cfg: Config, memory: BankMemory, op: Op)
    requires op.ProposeOp?
    ensures S.Quiet(EffectOf(cfg, EMPTY, memory, op).script, op.id)
  {
    hide Propose, S.Quiet;
    S.ProposeQuiet(cfg, memory, op.ctx, op.proposed, op.text, op.id, op.token, op.t1, op.t2);
  }

  lemma ProposalIsFound(cfg: Config, memory: BankMemory, op: Op)
    requires op.ProposeOp? && EffectOf(cfg, EMPTY, memory, op).reply.Outcome?
    requires EffectOf(cfg, EMPTY, memory, op).reply.status == Decided(RequireConfirmation)
    ensures |FindContacts(cfg.contacts, op.proposed.recipient)| == 1
    ensures var d := ApplyAll(EMPTY, EffectOf(cfg, EMPTY, memory, op).script);
      ByToken(d, op.token) == Some(AwaitingRow(cfg, op)) && d.book == map[]
  {
    hide EffectOf, FindContacts, Refusal;
    var script := EffectOf(cfg, EMPTY, memory, op).script;
    ProposalEndsAwaiting(cfg, memory, op);
    ProposalIsQuiet(cfg, memory, op);
    var r, n := AwaitingRow(cfg, op), |script| - 1;
    assert script == script[..n] + [Put(r)];
    LastPutWins(EMPTY, script[..n], r);
    OneRow(EMPTY, script, op.id);
    FilesNothing(EMPTY, script);
    assert [op.id][1..] == [];
  }

  lemma FirstBegin(cfg: Config, op: Op, a: nat, bank: nat, memory: BankMemory)
    requires op.ProposeOp?
    ensures var s := Ticked(cfg, NOBODY, Begin(a, bank, op, memory));
      && s.d == EMPTY && s.banks == map[]
      && s.workers == map[a := Worker(bank, Dos(EffectOf(cfg, EMPTY, memory, op).script))]
  {
    hide EffectOf;
  }

  lemma FirstThen(cfg: Config, begin: Tick, more: seq<Tick>)
    ensures Interleave(cfg, [begin] + more) == RunFrom(cfg, Ticked(cfg, NOBODY, begin), more)
  {
    hide Ticked;
    assert [begin][..0] == [];
    InterleaveMore(cfg, [begin], more);
  }

  lemma FirstProposal(cfg: Config, op: Op, a: nat, bank: nat, memory: BankMemory) returns (ticks: seq<Tick>)
    requires op.ProposeOp?
    ensures var s, script := Interleave(cfg, ticks), EffectOf(cfg, EMPTY, memory, op).script;
      && s.d == ApplyAll(EMPTY, script) && s.banks == map[]
      && s.workers == map[a := Worker(bank, [])]
    ensures SoloBy(ticks, a)
  {
    hide EffectOf, Ticked, ApplyAll, Dos, RunFrom, Interleave;
    var script := EffectOf(cfg, EMPTY, memory, op).script;
    var begin := Begin(a, bank, op, memory);
    FirstBegin(cfg, op, a, bank, memory);
    assert Dos(script) + [] == Dos(script);
    var begun := Worker(bank, Dos(script));
    DrainWrites(cfg, Ticked(cfg, NOBODY, begin), a, script, []);
    assert map[a := begun][a := begun.(todo := [])] == map[a := begun.(todo := [])];
    ticks := [begin] + Turns(a, |script|);
    FirstThen(cfg, begin, Turns(a, |script|));
  }

  /** Wherever policy would have a proposal confirmed, a race can be set up, all locks
      kept so far: the first proposal there ever was, and a confirmation of it in time. */
  lemma RacesCanHappen(cfg: Config, op: Op, a: nat, b: nat, bank: nat, at: Instant, payment: Id)
    requires a != b && op.ProposeOp? && at - op.t2 <= CONFIRMATION_TTL
    requires EffectOf(cfg, EMPTY, OpeningMemory(cfg), op).reply.Outcome?
    requires EffectOf(cfg, EMPTY, OpeningMemory(cfg), op).reply.status == Decided(RequireConfirmation)
    ensures exists ticks ::
      && Locked(cfg, ticks) && PayersAlone(cfg, ticks) && BanksAlone(cfg, ticks)
      && RaceReady(cfg, Interleave(cfg, ticks), a, b, bank, ConfirmOp(op.ctx, op.token, at, at, payment))
  {
    var memory := OpeningMemory(cfg);
    ProposalEndsAwaiting(cfg, memory, op);
    ProposalIsFound(cfg, memory, op);
    hide EffectOf, FindContacts, Refusal, ByToken, ApplyAll, Interleave;
    var ticks := FirstProposal(cfg, op, a, bank, memory);
    SoloKeepsTheLocks(cfg, ticks, a);
    hide Locked, PayersAlone, BanksAlone;
    assert RaceReady(cfg, Interleave(cfg, ticks), a, b, bank, ConfirmOp(op.ctx, op.token, at, at, payment));
  }
}
