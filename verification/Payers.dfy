/** What it takes for a balance to be debited once for the row it books. `PgBank.create_pix`
    (src/control_plane/pgbank.py) looks the key up, debits and files without holding
    anything. Where no worker starts on a payment another worker is still making, every
    debit since a bank opened has a key of its own and its receipt in the book, or about to
    be; where, besides, no two pay from one bank at a time, no balance goes below zero. */
module Payers {
  import opened Actions
  import opened Machine
  import opened Bank
  import opened Plane
  import opened Workers

  // ---------------------------------------------------------------- in every interleaving

  /** A bank's balances are the opening ones less what was taken since. */
  ghost predicate BalancesAre(cfg: Config, s: Shared, bank: nat) {
    var now := MemoryIn(cfg, s, bank);
    && now.accounts.Keys == cfg.accounts.Keys
    && (forall a | a in cfg.accounts :: now.accounts[a] == cfg.accounts[a] - Debits(DebitsOf(s, bank), a))
  }

  lemma DebitsSnoc(calls: seq<PixCall>, last: PixCall, a: string)
    ensures Debits(calls + [last], a) == Debits(calls, a) + if last.action.source == a then last.action.amount else 0
  {
    assert (calls + [last])[..|calls|] == calls;
  }

  lemma {:induction false} DebitsAreNotNegative(calls: seq<PixCall>, a: string)
    ensures Debits(calls, a) >= 0
  {
    if calls != [] {
      DebitsAreNotNegative(calls[..|calls| - 1], a);
    }
  }

  lemma TurnKeepsBalances(cfg: Config, s: Shared, worker: nat, bank: nat)
    requires worker in s.workers && s.workers[worker].todo != [] && BalancesAre(cfg, s, bank)
    ensures BalancesAre(cfg, DoJob(cfg, s, worker), bank)
  {
    hide DoJob, Debits;
    TurnTakes(cfg, s, worker);
    var job := s.workers[worker].todo[0];
    if job.Debit? && s.workers[worker].bank == bank {
      forall a | a in cfg.accounts
        ensures Debits(DebitsOf(DoJob(cfg, s, worker), bank), a)
             == Debits(DebitsOf(s, bank), a) + if job.row.action.source == a then job.row.action.amount else 0
      {
        DebitsSnoc(DebitsOf(s, bank), PixCall(job.row.id, job.row.action, job.payment), a);
      }
    }
  }

  lemma {:induction false} BalanceIsOpeningLessDebits(cfg: Config, ticks: seq<Tick>, bank: nat)
    ensures BalancesAre(cfg, Interleave(cfg, ticks), bank)
    decreases |ticks|
  {
    if ticks != [] {
      var before, m := ticks[..|ticks| - 1], ticks[|ticks| - 1];
      BalanceIsOpeningLessDebits(cfg, before, bank);
      if Possible(Interleave(cfg, before), m) && m.Turn? {
        TurnKeepsBalances(cfg, Interleave(cfg, before), m.worker, bank);
      }
      hide Plan, DoJob;
    }
  }

  // ---------------------------------------------------------------- one payer a key

  /** The job is on the way to a receipt filed for `id`. */
  predicate Pays(job: Job, id: Id) {
    match job
    case Do(w) => w.File? && w.id == id
    case Call(r, _) => r.id == id
    case Check(r, _) => r.id == id
    case Debit(r, _) => r.id == id
    case Reread(_, _) => false
    case AskBook(_) => false
  }

  ghost predicate PaysFor(todo: seq<Job>, id: Id) {
    exists job | job in todo :: Pays(job, id)
  }

  /** A worker that begins plans no payment another worker is still making. */
  ghost predicate OnePayer(cfg: Config, s: Shared, m: Tick) {
    m.Begin? && Possible(s, m) ==>
      forall id, w | w in s.workers && w != m.worker && PaysFor(s.workers[w].todo, id) ::
        !PaysFor(Plan(cfg, s.d, m.op, m.seen), id)
  }

  ghost predicate PayersAlone(cfg: Config, ticks: seq<Tick>) {
    ticks != [] ==>
      var before := ticks[..|ticks| - 1];
      PayersAlone(cfg, before) && OnePayer(cfg, Interleave(cfg, before), ticks[|ticks| - 1])
  }

  function ReceiptFor(call: PixCall): Receipt {
    Receipt(call.payment, call.action.amount, call.action.recipient)
  }

  /** About to file the receipt of a debit. */
  predicate Filing(w: Worker, call: PixCall) {
    && |w.todo| == 2 && w.todo[0] == Do(File(call.key, ReceiptFor(call))) && w.todo[1].Reread?
  }

  /** The debit's receipt is in the book, or a worker of that bank is about to file it. */
  ghost predicate Accounted(s: Shared, bank: nat, call: PixCall) {
    || (call.key in s.d.book && s.d.book[call.key] == ReceiptFor(call))
    || (exists w | w in s.workers :: s.workers[w].bank == bank && Filing(s.workers[w], call))
  }

  predicate Undebited(s: Shared, key: Id) {
    forall b, i | b in s.debits && 0 <= i < |s.debits[b]| :: s.debits[b][i].key != key
  }

  /** A plan before the bank call, or past it: it files nothing and is not in the middle. */
  predicate Outside(job: Job) {
    match job
    case Do(w) => !w.File?
    case Call(_, _) => true
    case Check(_, _) => false
    case Debit(_, _) => false
    case Reread(_, _) => true
    case AskBook(_) => true
  }

  /** Past the lookup nobody has debited the key; past the debit nobody has filed it. */
  ghost predicate InOrder(s: Shared, todo: seq<Job>) {
    || (forall job | job in todo :: Outside(job))
    || (|todo| == 1 && (todo[0].Check? || todo[0].Debit?)
        && todo[0].row.id !in s.d.book && Undebited(s, todo[0].row.id))
    || (|todo| == 2 && todo[0].Do? && todo[0].write.File? && todo[1].Reread?
        && todo[0].write.id !in s.d.book)
  }

  ghost predicate Distinct(s: Shared) {
    forall b, i, c, j |
      b in s.debits && c in s.debits && 0 <= i < |s.debits[b]| && 0 <= j < |s.debits[c]|
          && s.debits[b][i].key == s.debits[c][j].key ::
      b == c && i == j
  }

  ghost predicate Apart(s: Shared) {
    forall id, w, x | w in s.workers && x in s.workers && w != x && PaysFor(s.workers[w].todo, id) ::
      !PaysFor(s.workers[x].todo, id)
  }

  ghost predicate AllAccounted(s: Shared) {
    forall b, i | b in s.debits && 0 <= i < |s.debits[b]| :: Accounted(s, b, s.debits[b][i])
  }

  ghost predicate TakenOnce(s: Shared) {
    && Apart(s) && Distinct(s) && AllAccounted(s)
    && (forall w | w in s.workers :: InOrder(s, s.workers[w].todo))
  }

  // ---------------------------------------------------------------- kept by every tick

  ghost predicate NobodyElsePays(s: Shared, worker: nat, todo: seq<Job>) {
    forall id, w | w in s.workers && w != worker && PaysFor(s.workers[w].todo, id) :: !PaysFor(todo, id)
  }

  /** A plan replaced, away from the middle of a payment. */
  lemma Replan(s: Shared, s': Shared, worker: nat)
    requires TakenOnce(s) && s'.d.book == s.d.book && s'.debits == s.debits
    requires s'.workers.Keys == s.workers.Keys + {worker}
    requires forall w | w in s.workers && w != worker :: s'.workers[w] == s.workers[w]
    requires worker in s.workers
        ==> s.workers[worker].todo == [] || !s.workers[worker].todo[0].Do? || !s.workers[worker].todo[0].write.File?
    requires InOrder(s', s'.workers[worker].todo) && NobodyElsePays(s, worker, s'.workers[worker].todo)
    ensures TakenOnce(s')
  {
    forall b, i | b in s'.debits && 0 <= i < |s'.debits[b]|
      ensures Accounted(s', b, s'.debits[b][i])
    {
      var call := s.debits[b][i];
      assert Accounted(s, b, call);
      if !(call.key in s.d.book && s.d.book[call.key] == ReceiptFor(call)) {
        var w :| w in s.workers && s.workers[w].bank == b && Filing(s.workers[w], call);
        assert s'.workers[w] == s.workers[w];
      }
    }
    forall w | w in s'.workers
      ensures InOrder(s', s'.workers[w].todo)
    {
      if w != worker {
        assert InOrder(s, s.workers[w].todo);
      }
    }
  }

  lemma StillNobodyElse(s: Shared, worker: nat, todo: seq<Job>)
    requires Apart(s) && worker in s.workers
    requires forall id :: PaysFor(todo, id) ==> PaysFor(s.workers[worker].todo, id)
    ensures NobodyElsePays(s, worker, todo)
  {
  }

  lemma SettleOutside(r: InFlight, answer: Answer)
    ensures forall job | job in Dos(SettleScript(r, answer)) :: job.Do? && !job.write.File?
  {
    var ws := SettleScript(r, answer);
    assert forall i | 0 <= i < |ws| :: !ws[i].File?;
  }

  lemma ReconcileOutside(r: InDoubt, receipt: Option<Receipt>)
    ensures forall job | job in Dos(ReconcileScript(r, receipt)) :: job.Do? && !job.write.File?
  {
    var ws := ReconcileScript(r, receipt);
    assert forall i | 0 <= i < |ws| :: !ws[i].File?;
  }

  /** Whatever a job but the debit leaves, it pays for no new key. */
  lemma NextJobs(cfg: Config, s: Shared, worker: nat)
    requires worker in s.workers && s.workers[worker].todo != [] && !s.workers[worker].todo[0].Debit?
    ensures var todo, todo' := s.workers[worker].todo, DoJob(cfg, s, worker).workers[worker].todo;
      || (todo[0].Do? && todo' == todo[1..])
      || (todo[0].Call? && todo' == [Check(todo[0].row, todo[0].payment)] && todo[0].row.id !in s.d.book)
      || (todo[0].Check? && todo' == [Debit(todo[0].row, todo[0].payment)])
      || (forall job | job in todo' :: job.Do? && !job.write.File?)
  {
    hide SettleScript, ReconcileScript, Refusal, Apply, Dos;
    match s.workers[worker].todo[0]
    case Do(_) =>
    case Call(r, _) =>
      if r.id in s.d.book {
        SettleOutside(r, Paid(s.d.book[r.id]));
      }
    case Check(r, _) =>
      var refusal := Refusal(cfg.contacts, MemoryIn(cfg, s, s.workers[worker].bank), r.action);
      if refusal.Some? {
        SettleOutside(r, Refused(refusal.value));
      }
    case Reread(r, mine) =>
      SettleOutside(r, NoAnswer);
      SettleOutside(r, Paid(if r.id in s.d.book then s.d.book[r.id] else mine));
    case AskBook(r) => ReconcileOutside(r, Lookup(s.d.book, r.id));
  }

  lemma NextPays(cfg: Config, s: Shared, worker: nat, id: Id)
    requires worker in s.workers && s.workers[worker].todo != [] && !s.workers[worker].todo[0].Debit?
    requires PaysFor(DoJob(cfg, s, worker).workers[worker].todo, id)
    ensures PaysFor(s.workers[worker].todo, id)
  {
    var todo := s.workers[worker].todo;
    NextJobs(cfg, s, worker);
    hide DoJob;
    var job :| job in DoJob(cfg, s, worker).workers[worker].todo && Pays(job, id);
    assert todo[0] in todo && forall x | x in todo[1..] :: x in todo;
    assert job in todo || Pays(todo[0], id);
  }

  /** A key that is not in the book, and whose only payer is still at the lookup, has not
      been debited. */
  lemma LookupFindsNoDebit(s: Shared, worker: nat, r: InFlight, payment: Id)
    requires TakenOnce(s) && worker in s.workers && s.workers[worker].todo != []
    requires s.workers[worker].todo[0] == Call(r, payment) && r.id !in s.d.book
    ensures Undebited(s, r.id)
  {
    assert s.workers[worker].todo[0] in s.workers[worker].todo && PaysFor(s.workers[worker].todo, r.id);
    forall b, i | b in s.debits && 0 <= i < |s.debits[b]|
      ensures s.debits[b][i].key != r.id
    {
      var call := s.debits[b][i];
      assert Accounted(s, b, call);
      if !(call.key in s.d.book && s.d.book[call.key] == ReceiptFor(call)) {
        var w :| w in s.workers && s.workers[w].bank == b && Filing(s.workers[w], call);
        assert s.workers[w].todo[0] in s.workers[w].todo && PaysFor(s.workers[w].todo, call.key);
        assert w != worker;
      }
    }
  }

  lemma PlainTurn(cfg: Config, s: Shared, worker: nat)
    requires TakenOnce(s) && worker in s.workers && s.workers[worker].todo != []
    requires !s.workers[worker].todo[0].Debit?
    requires !(s.workers[worker].todo[0].Do? && s.workers[worker].todo[0].write.File?)
    ensures TakenOnce(DoJob(cfg, s, worker))
  {
    var todo, s' := s.workers[worker].todo, DoJob(cfg, s, worker);
    TurnElsewhere(cfg, s, worker);
    TurnWrites(cfg, s, worker);
    TurnTakes(cfg, s, worker);
    NextJobs(cfg, s, worker);
    assert InOrder(s, todo);
    assert todo[0] in todo && forall x | x in todo[1..] :: x in todo;
    if todo[0].Call? && todo[0].row.id !in s.d.book {
      LookupFindsNoDebit(s, worker, todo[0].row, todo[0].payment);
    }
    forall id | PaysFor(s'.workers[worker].todo, id)
      ensures PaysFor(todo, id)
    {
      NextPays(cfg, s, worker, id);
    }
    hide DoJob;
    StillNobodyElse(s, worker, s'.workers[worker].todo);
    assert InOrder(s', s'.workers[worker].todo);
    Replan(s, s', worker);
  }

  /** A step on one key leaves everybody else where they were. */
  lemma OthersInOrder(s: Shared, s': Shared, worker: nat, key: Id)
    requires TakenOnce(s) && worker in s.workers && PaysFor(s.workers[worker].todo, key)
    requires s'.workers.Keys == s.workers.Keys
    requires forall w | w in s.workers && w != worker :: s'.workers[w] == s.workers[w]
    requires forall k | k != key :: k in s'.d.book ==> k in s.d.book
    requires forall k | k != key && Undebited(s, k) :: Undebited(s', k)
    requires InOrder(s', s'.workers[worker].todo)
    ensures forall w | w in s'.workers :: InOrder(s', s'.workers[w].todo)
  {
    hide Undebited, Distinct, AllAccounted;
    forall w | w in s'.workers
      ensures InOrder(s', s'.workers[w].todo)
    {
      if w != worker {
        assert InOrder(s, s.workers[w].todo) && !PaysFor(s.workers[w].todo, key);
        var other := s.workers[w].todo;
        assert other != [] ==> other[0] in other && !Pays(other[0], key);
      }
    }
  }

  lemma FileGives(cfg: Config, s: Shared, worker: nat)
    requires TakenOnce(s) && worker in s.workers && s.workers[worker].todo != []
    requires s.workers[worker].todo[0].Do? && s.workers[worker].todo[0].write.File?
    ensures var s', todo := DoJob(cfg, s, worker), s.workers[worker].todo;
      var write := todo[0].write;
      && |todo| == 2 && s'.workers[worker].todo == [todo[1]] && todo[1].Reread?
      && write.id !in s.d.book && s'.d.book == s.d.book[write.id := write.receipt]
      && PaysFor(todo, write.id)
  {
    hide Apart, Distinct, AllAccounted;
    var todo := s.workers[worker].todo;
    TurnWrites(cfg, s, worker);
    NextJobs(cfg, s, worker);
    assert InOrder(s, todo) && todo[0] in todo;
  }

  lemma FileTurn(cfg: Config, s: Shared, worker: nat)
    requires TakenOnce(s) && worker in s.workers && s.workers[worker].todo != []
    requires s.workers[worker].todo[0].Do? && s.workers[worker].todo[0].write.File?
    ensures TakenOnce(DoJob(cfg, s, worker))
  {
    hide DoJob, Apply;
    var todo, s' := s.workers[worker].todo, DoJob(cfg, s, worker);
    TurnElsewhere(cfg, s, worker);
    TurnTakes(cfg, s, worker);
    FileGives(cfg, s, worker);
    OthersInOrder(s, s', worker, todo[0].write.id);
    forall b, i | b in s'.debits && 0 <= i < |s'.debits[b]|
      ensures Accounted(s', b, s'.debits[b][i])
    {
      var call := s.debits[b][i];
      assert Accounted(s, b, call);
      if !(call.key in s.d.book && s.d.book[call.key] == ReceiptFor(call)) {
        var w :| w in s.workers && s.workers[w].bank == b && Filing(s.workers[w], call);
        assert w != worker ==> s'.workers[w] == s.workers[w];
      }
    }
  }

  lemma DebitGives(cfg: Config, s: Shared, worker: nat)
    requires TakenOnce(s) && worker in s.workers && s.workers[worker].todo != []
    requires s.workers[worker].todo[0].Debit?
    ensures var s', todo, bank := DoJob(cfg, s, worker), s.workers[worker].todo, s.workers[worker].bank;
      var call := PixCall(todo[0].row.id, todo[0].row.action, todo[0].payment);
      && s'.workers[worker]
          == Worker(bank, [Do(File(call.key, ReceiptFor(call))), Reread(todo[0].row, ReceiptFor(call))])
      && Filing(s'.workers[worker], call)
      && s'.d == s.d && call.key !in s.d.book && Undebited(s, call.key) && PaysFor(todo, call.key)
      && InOrder(s', s'.workers[worker].todo)
  {
    hide Apart, Distinct, AllAccounted, Undebited, Debited;
    var todo := s.workers[worker].todo;
    assert InOrder(s, todo) && todo[0] in todo;
  }

  lemma DebitTurn(cfg: Config, s: Shared, worker: nat)
    requires TakenOnce(s) && worker in s.workers && s.workers[worker].todo != []
    requires s.workers[worker].todo[0].Debit?
    ensures TakenOnce(DoJob(cfg, s, worker))
  {
    hide DoJob, Debited, Filing, InOrder, Accounted, Distinct, AllAccounted;
    var todo, s', bank := s.workers[worker].todo, DoJob(cfg, s, worker), s.workers[worker].bank;
    var call := PixCall(todo[0].row.id, todo[0].row.action, todo[0].payment);
    TurnElsewhere(cfg, s, worker);
    TurnTakes(cfg, s, worker);
    DebitGives(cfg, s, worker);
    OthersInOrder(s, s', worker, call.key);
    DebitAccounted(s, s', worker, call);
    DebitDistinct(s, s', bank, call);
  }

  lemma DebitAccounted(s: Shared, s': Shared, worker: nat, call: PixCall)
    requires TakenOnce(s) && worker in s.workers && s.workers[worker].todo != [] && s.workers[worker].todo[0].Debit?
    requires s'.d == s.d && s'.workers.Keys == s.workers.Keys && s'.workers[worker].bank == s.workers[worker].bank
    requires forall w | w in s.workers && w != worker :: s'.workers[w] == s.workers[w]
    requires s'.debits == s.debits[s.workers[worker].bank := DebitsOf(s, s.workers[worker].bank) + [call]]
    requires Filing(s'.workers[worker], call)
    ensures AllAccounted(s')
  {
    forall b, i | b in s'.debits && 0 <= i < |s'.debits[b]|
      ensures Accounted(s', b, s'.debits[b][i])
    {
      if i < |DebitsOf(s, b)| {
        var earlier := s.debits[b][i];
        assert Accounted(s, b, earlier);
        if !(earlier.key in s.d.book && s.d.book[earlier.key] == ReceiptFor(earlier)) {
          var w :| w in s.workers && s.workers[w].bank == b && Filing(s.workers[w], earlier);
          assert s'.workers[w] == s.workers[w];
        }
      }
    }
  }

  lemma DebitDistinct(s: Shared, s': Shared, bank: nat, call: PixCall)
    requires Distinct(s) && Undebited(s, call.key)
    requires s'.debits == s.debits[bank := DebitsOf(s, bank) + [call]]
    ensures Distinct(s')
  {
  }

  lemma DieTurn(cfg: Config, s: Shared, worker: nat)
    requires TakenOnce(s) && worker in s.workers
    ensures TakenOnce(Ticked(cfg, s, Die(worker)))
  {
    var s' := Ticked(cfg, s, Die(worker));
    forall b, i | b in s'.debits && 0 <= i < |s'.debits[b]|
      ensures Accounted(s', b, s'.debits[b][i])
    {
      var call := s.debits[b][i];
      assert Accounted(s, b, call);
      if !(call.key in s.d.book && s.d.book[call.key] == ReceiptFor(call)) {
        var w :| w in s.workers && s.workers[w].bank == b && Filing(s.workers[w], call);
        assert s'.workers[w] == s.workers[w];
      }
    }
    forall w | w in s'.workers
      ensures InOrder(s', s'.workers[w].todo)
    {
      assert w != worker ==> InOrder(s, s.workers[w].todo);
    }
  }

  lemma PlanIsOutside(cfg: Config, s: Shared, op: Op, seen: BankMemory)
    requires Sound(cfg, s) && (Opening(op) ==> op.id !in s.used)
    ensures forall job | job in Plan(cfg, s.d, op, seen) :: Outside(job)
  {
    if Accepted(cfg, s.d, op) {
      var r := ByToken(s.d, op.token).value;
      var script := ConsentScript(r, op.ctx, op.token, op.t2);
      assert forall i | 0 <= i < |script| :: !script[i].File?;
    } else if op.ReconcileOp? && OwnedByCustomer(s.d, op.ctx, op.id).Some? && s.d.rows[op.id].state == Unknown {
    } else {
      ScriptPlanOk(cfg, s, op, seen, "");
      OkFilesNothing(cfg.secret, "", AuditAt(cfg, s, ""), EffectOf(cfg, s.d, seen, op).script);
    }
  }

  lemma BeginTurn(cfg: Config, s: Shared, m: Tick)
    requires Sound(cfg, s) && TakenOnce(s) && m.Begin? && Possible(s, m) && OnePayer(cfg, s, m)
    ensures TakenOnce(Ticked(cfg, s, m))
  {
    PlanIsOutside(cfg, s, m.op, m.seen);
    hide Plan, Sound;
    Replan(s, Ticked(cfg, s, m), m.worker);
  }

  lemma {:induction false} AloneIsTakenOnce(cfg: Config, ticks: seq<Tick>)
    requires PayersAlone(cfg, ticks)
    ensures TakenOnce(Interleave(cfg, ticks))
    decreases |ticks|
  {
    if ticks != [] {
      var before, m := ticks[..|ticks| - 1], ticks[|ticks| - 1];
      var s := Interleave(cfg, before);
      AloneIsTakenOnce(cfg, before);
      EveryInterleavingIsSound(cfg, before);
      hide Interleave, Sound, TakenOnce, OnePayer, DoJob, Plan;
      if Possible(s, m) {
        match m
        case Begin(_, _, _, _) => BeginTurn(cfg, s, m);
        case Turn(worker) =>
          var job := s.workers[worker].todo[0];
          if job.Debit? {
            DebitTurn(cfg, s, worker);
          } else if job.Do? && job.write.File? {
            FileTurn(cfg, s, worker);
          } else {
            PlainTurn(cfg, s, worker);
          }
        case Die(worker) => DieTurn(cfg, s, worker);
        case Rewrite(id, action) => RewriteTurn(cfg, s, id, action);
      }
    }
  }

  lemma RewriteTurn(cfg: Config, s: Shared, id: Id, action: CreatePix)
    requires TakenOnce(s)
    ensures TakenOnce(Ticked(cfg, s, Rewrite(id, action)))
  {
    var s' := Ticked(cfg, s, Rewrite(id, action));
    assert forall w | w in s'.workers :: InOrder(s, s.workers[w].todo);
    assert forall b, i | b in s.debits && 0 <= i < |s.debits[b]| :: Accounted(s, b, s.debits[b][i]);
  }

  /** Conservation: balances are the opening ones less the debits, every debit has a key
      no debit of any bank shares, and its receipt is in the book or about to be. */
  ghost predicate Conserved(cfg: Config, s: Shared) {
    && (forall bank :: BalancesAre(cfg, s, bank))
    && Distinct(s) && AllAccounted(s)
  }

  /** In every interleaving where each key has one payer at a time, each balance is what
      the bank opened with less the booked payments made through it since, each taken
      once. */
  lemma MoneyIsTakenOnce(cfg: Config, ticks: seq<Tick>)
    requires PayersAlone(cfg, ticks)
    ensures Conserved(cfg, Interleave(cfg, ticks))
  {
    AloneIsTakenOnce(cfg, ticks);
    forall bank
      ensures BalancesAre(cfg, Interleave(cfg, ticks), bank)
    {
      BalanceIsOpeningLessDebits(cfg, ticks, bank);
    }
  }

  // ---------------------------------------------------------------- one payment a bank

  predicate Spends(job: Job) {
    job.Call? || job.Check? || job.Debit?
  }

  predicate Paying(todo: seq<Job>) {
    exists job | job in todo :: Spends(job)
  }

  /** A worker that begins plans no payment from a bank another worker is paying from. */
  ghost predicate OneAtABank(cfg: Config, s: Shared, m: Tick) {
    m.Begin? && Possible(s, m) ==>
      forall w | w in s.workers && w != m.worker && s.workers[w].bank == m.bank && Paying(s.workers[w].todo) ::
        !Paying(Plan(cfg, s.d, m.op, m.seen))
  }

  ghost predicate BanksAlone(cfg: Config, ticks: seq<Tick>) {
    ticks != [] ==>
      var before := ticks[..|ticks| - 1];
      BanksAlone(cfg, before) && OneAtABank(cfg, Interleave(cfg, before), ticks[|ticks| - 1])
  }

  /** What a worker is about to debit is still there to be debited. */
  ghost predicate Affordable(cfg: Config, s: Shared, w: Worker) {
    (exists job | job in w.todo :: job.Debit?) ==>
      |w.todo| == 1 && w.todo[0].Debit? && Refusal(cfg.contacts, MemoryIn(cfg, s, w.bank), w.todo[0].row.action).None?
  }

  ghost predicate Afforded(cfg: Config, s: Shared) {
    && (forall w, x | w in s.workers && x in s.workers && w != x && s.workers[w].bank == s.workers[x].bank ::
          !(Paying(s.workers[w].todo) && Paying(s.workers[x].todo)))
    && (forall w | w in s.workers :: Affordable(cfg, s, s.workers[w]))
    && (forall bank :: Solvent(MemoryIn(cfg, s, bank)))
  }

  lemma NextSpends(cfg: Config, s: Shared, worker: nat)
    requires worker in s.workers && s.workers[worker].todo != []
    requires Paying(DoJob(cfg, s, worker).workers[worker].todo)
    ensures Paying(s.workers[worker].todo)
  {
    var todo := s.workers[worker].todo;
    if !todo[0].Debit? {
      NextJobs(cfg, s, worker);
    }
    assert todo[0] in todo && forall x | x in todo[1..] :: x in todo;
    hide SettleScript, ReconcileScript, Apply;
    var job :| job in DoJob(cfg, s, worker).workers[worker].todo && Spends(job);
    assert job in todo || Spends(todo[0]);
  }

  lemma TurnAffords(cfg: Config, s: Shared, worker: nat)
    requires Afforded(cfg, s) && worker in s.workers && s.workers[worker].todo != []
    ensures var s' := DoJob(cfg, s, worker); Affordable(cfg, s', s'.workers[worker])
  {
    var todo, s' := s.workers[worker].todo, DoJob(cfg, s, worker);
    assert Affordable(cfg, s, s.workers[worker]);
    assert todo[0] in todo && forall x | x in todo[1..] :: x in todo;
    TurnTakes(cfg, s, worker);
    if todo[0].Check? {
      CheckAffords(cfg, s, worker);
    } else if !todo[0].Debit? {
      NextJobs(cfg, s, worker);
    }
  }

  lemma CheckAffords(cfg: Config, s: Shared, worker: nat)
    requires worker in s.workers && s.workers[worker].todo != [] && s.workers[worker].todo[0].Check?
    ensures var s' := DoJob(cfg, s, worker); Affordable(cfg, s', s'.workers[worker])
  {
    var r := s.workers[worker].todo[0].row;
    var refusal := Refusal(cfg.contacts, MemoryIn(cfg, s, s.workers[worker].bank), r.action);
    if refusal.Some? {
      SettleOutside(r, Refused(refusal.value));
    }
    hide SettleScript, Refusal;
  }

  lemma TurnKeepsSolvent(cfg: Config, s: Shared, worker: nat, b: nat)
    requires Afforded(cfg, s) && worker in s.workers && s.workers[worker].todo != []
    ensures Solvent(MemoryIn(cfg, DoJob(cfg, s, worker), b))
  {
    hide DoJob, Refusal, Debited, Solvent, Paying;
    var todo, bank := s.workers[worker].todo, s.workers[worker].bank;
    TurnTakes(cfg, s, worker);
    assert Solvent(MemoryIn(cfg, s, b));
    if todo[0].Debit? && b == bank {
      assert Affordable(cfg, s, s.workers[worker]) && todo[0] in todo;
      DebitLeavesEnough(cfg, MemoryIn(cfg, s, bank), todo[0].row.action);
    }
  }

  lemma TurnKeepsAfforded(cfg: Config, s: Shared, worker: nat)
    requires Afforded(cfg, s) && worker in s.workers && s.workers[worker].todo != []
    ensures Afforded(cfg, DoJob(cfg, s, worker))
  {
    hide DoJob, Refusal, Solvent, Debited;
    var todo, s', bank := s.workers[worker].todo, DoJob(cfg, s, worker), s.workers[worker].bank;
    TurnElsewhere(cfg, s, worker);
    TurnTakes(cfg, s, worker);
    TurnAffords(cfg, s, worker);
    TurnStays(cfg, s, worker);
    if Paying(s'.workers[worker].todo) {
      NextSpends(cfg, s, worker);
    }
    assert todo[0] in todo;
    forall w | w in s'.workers && w != worker
      ensures Affordable(cfg, s', s'.workers[w])
    {
      assert Affordable(cfg, s, s.workers[w]);
      if todo[0].Debit? && s.workers[w].bank == bank {
        assert Paying(todo);
        assert forall job | job in s.workers[w].todo :: !Spends(job);
      }
    }
    forall b
      ensures Solvent(MemoryIn(cfg, s', b))
    {
      TurnKeepsSolvent(cfg, s, worker, b);
    }
  }

  lemma TurnStays(cfg: Config, s: Shared, worker: nat)
    requires worker in s.workers && s.workers[worker].todo != []
    ensures DoJob(cfg, s, worker).workers[worker].bank == s.workers[worker].bank
  {
    hide Apply, SettleScript, ReconcileScript, Dos, Refusal, Debited;
  }

  lemma DebitLeavesEnough(cfg: Config, memory: BankMemory, action: CreatePix)
    requires Solvent(memory) && Refusal(cfg.contacts, memory, action).None?
    ensures Solvent(Debited(memory, action))
  {
  }

  lemma DieKeepsAfforded(cfg: Config, s: Shared, worker: nat)
    requires Afforded(cfg, s) && worker in s.workers && Solvent(OpeningMemory(cfg))
    requires forall bank :: BalancesAre(cfg, s, bank)
    ensures Afforded(cfg, Ticked(cfg, s, Die(worker)))
  {
    hide Debits, Solvent;
    var s', bank := Ticked(cfg, s, Die(worker)), s.workers[worker].bank;
    assert BalancesAre(cfg, s, bank);
    forall w | w in s'.workers
      ensures Affordable(cfg, s', s'.workers[w])
    {
      assert Affordable(cfg, s, s.workers[w]);
      if w != worker && s.workers[w].bank == bank && (exists job | job in s.workers[w].todo :: job.Debit?) {
        DebitsAreNotNegative(DebitsOf(s, bank), s.workers[w].todo[0].row.action.source);
      }
    }
    forall b
      ensures Solvent(MemoryIn(cfg, s', b))
    {
      assert Solvent(MemoryIn(cfg, s, b));
    }
  }

  lemma BeginKeepsAfforded(cfg: Config, s: Shared, m: Tick)
    requires Sound(cfg, s) && Afforded(cfg, s) && m.Begin? && Possible(s, m) && OneAtABank(cfg, s, m)
    ensures Afforded(cfg, Ticked(cfg, s, m))
  {
    hide Plan, Sound, Refusal;
    var s' := Ticked(cfg, s, m);
    PlanIsOutside(cfg, s, m.op, m.seen);
    forall w | w in s'.workers
      ensures Affordable(cfg, s', s'.workers[w])
    {
      if w != m.worker {
        assert Affordable(cfg, s, s.workers[w]);
      }
    }
    forall b
      ensures Solvent(MemoryIn(cfg, s', b))
    {
      assert Solvent(MemoryIn(cfg, s, b));
    }
  }

  lemma {:induction false} AloneIsAfforded(cfg: Config, ticks: seq<Tick>)
    requires BanksAlone(cfg, ticks) && Solvent(OpeningMemory(cfg))
    ensures Afforded(cfg, Interleave(cfg, ticks))
    decreases |ticks|
  {
    if ticks != [] {
      var before, m := ticks[..|ticks| - 1], ticks[|ticks| - 1];
      var s := Interleave(cfg, before);
      AloneIsAfforded(cfg, before);
      EveryInterleavingIsSound(cfg, before);
      forall bank
        ensures BalancesAre(cfg, s, bank)
      {
        BalanceIsOpeningLessDebits(cfg, before, bank);
      }
      hide Interleave, Sound, DoJob, Plan, OneAtABank;
      if Possible(s, m) {
        match m
        case Begin(_, _, _, _) =>
          hide Afforded;
          BeginKeepsAfforded(cfg, s, m);
        case Turn(worker) =>
          hide Afforded;
          TurnKeepsAfforded(cfg, s, worker);
        case Die(worker) =>
          hide Afforded;
          DieKeepsAfforded(cfg, s, worker);
        case Rewrite(id, action) => RewriteKeepsAfforded(cfg, s, id, action);
      }
    }
  }

  lemma RewriteKeepsAfforded(cfg: Config, s: Shared, id: Id, action: CreatePix)
    requires Afforded(cfg, s)
    ensures Afforded(cfg, Ticked(cfg, s, Rewrite(id, action)))
  {
    var s' := Ticked(cfg, s, Rewrite(id, action));
    assert forall bank :: MemoryIn(cfg, s', bank) == MemoryIn(cfg, s, bank);
    assert forall w | w in s'.workers :: Affordable(cfg, s, s.workers[w]);
  }

  /** In every interleaving where each bank has one payment at a time, a bank that opened
      with no balance below zero never has one. */
  lemma NobodyGoesBelowZero(cfg: Config, ticks: seq<Tick>, bank: nat)
    requires BanksAlone(cfg, ticks) && Solvent(OpeningMemory(cfg))
    ensures Solvent(MemoryIn(cfg, Interleave(cfg, ticks), bank))
  {
    AloneIsAfforded(cfg, ticks);
  }
}
