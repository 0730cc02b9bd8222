/** The whole service as it runs: live planes, one a conversation, over one store of live
    intents and one book; processes that die inside a bank call and start again with
    nothing but store, ledger and book; and stored actions rewritten behind its back. It
    stands at all times where the serial system stands. */
module Service {
  import opened Actions
  import opened Policy
  import opened Bank
  import opened Plane
  import opened Stores
  import opened Control
  import opened Scopes
  import Pg = PgBank
  import S = Serial

  /** `Die` runs a call with a crash named inside the bank call (tests/fakes.py); a call
      that does not come to that point is answered. */
  datatype Command =
    | Do(op: Op)
    | Die(op: Op, crash: CrashAt)
    | Reboot
    | Rewrite(id: Id, action: CreatePix)

  predicate Fatal(cfg: Config, w: S.World, op: Op, crash: CrashAt) {
    && Accepted(cfg, w.d, op)
    && Dies(Some(crash), CallOf(cfg, w, op).answer)
  }

  function CallOf(cfg: Config, w: S.World, op: Op): PixEffect
    requires Accepted(cfg, w.d, op)
  {
    PaymentCall(cfg, w.d, S.MemoryOf(cfg, w, PrincipalOf(op.ctx)), op.ctx, op.token, op.t2, op.payment)
  }

  function LeftBy(cfg: Config, w: S.World, op: Op, crash: CrashAt): seq<Write>
    requires Accepted(cfg, w.d, op)
  {
    Remains(Some(crash), ByToken(w.d, op.token).value, op.ctx, op.token, op.t2, CallOf(cfg, w, op))
  }

  /** The step of the serial system a command is. */
  function StepOf(cfg: Config, w: S.World, c: Command): S.Step {
    match c
    case Do(op) => S.Done(op)
    case Die(op, crash) => if Fatal(cfg, w, op, crash) then S.Crashed(op, |LeftBy(cfg, w, op, crash)|) else S.Done(op)
    case Reboot => S.Restart
    case Rewrite(id, action) => S.Tamper(id, action)
  }

  /** What is answered: nothing when the process dies. */
  function ReplyTo(cfg: Config, w: S.World, c: Command): Option<Reply> {
    match c
    case Do(op) => Some(S.EffectIn(cfg, w, op).reply)
    case Die(op, crash) => if Fatal(cfg, w, op, crash) then None else Some(S.EffectIn(cfg, w, op).reply)
    case Reboot => None
    case Rewrite(_, _) => None
  }

  /** The run of the serial system a run of commands is. */
  function StepsOf(cfg: Config, commands: seq<Command>): seq<S.Step> {
    if commands == [] then []
    else
      var before := StepsOf(cfg, commands[..|commands| - 1]);
      before + [StepOf(cfg, S.Run(cfg, before), commands[|commands| - 1])]
  }

  function RepliesOf(cfg: Config, commands: seq<Command>): seq<Option<Reply>> {
    if commands == [] then []
    else
      var before := commands[..|commands| - 1];
      RepliesOf(cfg, before) + [ReplyTo(cfg, S.Run(cfg, StepsOf(cfg, before)), commands[|commands| - 1])]
  }

  lemma MemorySetTwice(memories: map<Principal, BankMemory>, p: Principal, a: BankMemory, b: BankMemory)
    ensures memories[p := a][p := b] == memories[p := b]
  {
  }

  /** One answered call of the serial system, spelled out. */
  lemma OneCall(cfg: Config, w: S.World, op: Op)
    requires !op.SweepOp?
    ensures var p := S.PrincipalOn(op);
      var effect := EffectOf(cfg, w.d, S.MemoryOf(cfg, w, p), op);
      && S.EffectIn(cfg, w, op) == effect
      && S.Next(cfg, w, S.Done(op))
         == S.World(ApplyAll(w.d, effect.script), w.memories[p := effect.memory], S.Later(op, w.now))
  {
    hide EffectOf, ApplyAll;
  }

  /** One fatal call of the serial system, spelled out. */
  lemma OneCrash(cfg: Config, w: S.World, op: Op, crash: CrashAt)
    ensures Fatal(cfg, w, op, crash) ==>
      S.Next(cfg, w, StepOf(cfg, w, Die(op, crash)))
      == S.World(ApplyAll(w.d, LeftBy(cfg, w, op, crash)), map[], S.Later(op, w.now))
    ensures !Fatal(cfg, w, op, crash) ==> StepOf(cfg, w, Die(op, crash)) == S.Done(op)
    ensures ReplyTo(cfg, w, Die(op, crash))
            == if Fatal(cfg, w, op, crash) then None else Some(S.EffectIn(cfg, w, op).reply)
  {
    hide EffectOf, ApplyAll, Remains, PaymentCall, Reaches;
    if Fatal(cfg, w, op, crash) {
      CrashesAreRunSteps(cfg, w, Some(crash), op.ctx, op.token, op.t1, op.t2, op.payment);
    }
  }

  lemma NoneYet(cfg: Config)
    ensures S.Run(cfg, StepsOf(cfg, [])) == S.BIRTH && RepliesOf(cfg, []) == []
  {
  }

  lemma OneMore(cfg: Config, commands: seq<Command>, i: nat)
    requires i < |commands|
    ensures var w := S.Run(cfg, StepsOf(cfg, commands[..i]));
      && S.Run(cfg, StepsOf(cfg, commands[..i + 1])) == S.Next(cfg, w, StepOf(cfg, w, commands[i]))
      && RepliesOf(cfg, commands[..i + 1]) == RepliesOf(cfg, commands[..i]) + [ReplyTo(cfg, w, commands[i])]
  {
    hide StepOf, ReplyTo, S.Next;
    assert commands[..i + 1][..i] == commands[..i];
    var steps := StepsOf(cfg, commands[..i + 1]);
    assert steps[..|steps| - 1] == StepsOf(cfg, commands[..i]);
  }

  class Service {
    const cfg: Config
    const store: MemoryStore
    const book: Pg.Book
    var scopes: Scopes
    ghost var now: Instant

    ghost predicate Valid()
      reads this, scopes, store
    {
      && store.Valid() && scopes.Valid()
      && scopes.template.store == store && scopes.template.bank.book == book && scopes.template.Cfg() == cfg
    }

    ghost function Durably(): Durable
      reads store, store.intents.Values, book
    {
      Durable(store.order, store.Rows(), store.events, book.rows)
    }

    ghost function World(): S.World
      requires scopes.Valid()
      reads this, scopes, scopes.banks, store, store.intents.Values, book
    {
      S.World(Durably(), scopes.Memories(), now)
    }

    /** Nothing stored, nothing booked, nobody served. */
    ghost predicate Newborn()
      reads this, scopes, store, book
    {
      && store.intents == map[] && store.order == [] && store.events == []
      && book.rows == map[] && scopes.planes == map[] && now == 0
    }

    lemma NewbornIsBirth()
      requires Valid() && Newborn()
      ensures World() == S.BIRTH
    {
      assert store.Rows() == map[] && scopes.Memories() == map[];
    }

    constructor (cfg: Config)
      ensures Valid() && this.cfg == cfg && Newborn() && fresh(scopes) && fresh(store) && fresh(book)
    {
      var store := new MemoryStore();
      var book := new Pg.Book();
      var bank := new Pg.PgBank(cfg.contacts, cfg.accounts, cfg.paidBefore, book);
      var template := new ControlPlane(bank, store, cfg.secret);
      this.scopes := new Scopes(template);
      this.cfg := cfg;
      this.store := store;
      this.book := book;
      this.now := 0;
    }

    /** A process starts: the conversations' banks are gone, store, ledger and book stay. */
    method StartUp()
      requires Valid()
      modifies this`scopes
      ensures Valid() && fresh(scopes) && scopes.planes == map[] && scopes.banks == {}
      ensures World() == old(World()).(memories := map[]) == S.Next(cfg, old(World()), S.Restart)
    {
      hide MemoryStore.Valid, Scopes.Memories;
      var bank := new Pg.PgBank(cfg.contacts, cfg.accounts, cfg.paidBefore, book);
      var template := new ControlPlane(bank, store, cfg.secret);
      scopes := new Scopes(template);
    }

    /** Somebody rewrites a stored action. */
    method RewriteAction(id: Id, action: CreatePix)
      requires Valid()
      modifies store.intents.Values
      ensures Valid()
      ensures World() == S.Next(cfg, old(World()), S.Tamper(id, action))
    {
      hide Scopes.Memories, Scopes.Valid;
      ghost var rows := store.Rows();
      var found := store.Get(id);
      if found.Some? {
        ghost var r := found.value.Row();
        found.value.action := action;
        store.ShowsAtOnce(found.value);
        assert rows[id] == r && store.Rows() == rows[id := r.(action := action)];
      }
    }

    /** The boot sweep has no caller, and no bank of its own. */
    method Sweep() returns (reply: Reply)
      requires Valid()
      modifies store, store.intents.Values
      ensures Valid() && store.intents == old(store.intents)
      ensures World() == S.Next(cfg, old(World()), S.Done(SweepOp))
      ensures reply == S.EffectIn(cfg, old(World()), SweepOp).reply
    {
      hide ApplyAll, SweepScript, InState;
      var ids := scopes.template.Sweep();
      reply := Swept(ids);
    }

    ghost predicate Stands(d: Durable, memories: map<Principal, BankMemory>)
      requires scopes.Valid()
      reads this, scopes, scopes.banks, store, store.intents.Values, book
    {
      Durably() == d && scopes.Memories() == memories
    }

    /** The clock as last read. */
    ghost method Tell(op: Op, w: S.World)
      requires scopes.Valid() && Stands(w.d, w.memories) && w.now == S.Later(op, now)
      modifies `now
      ensures World() == w
    {
      now := S.Later(op, now);
    }

    /** The conversation's plane, its bank as the serial system has it. */
    method Scope(ctx: Context) returns (plane: ControlPlane)
      requires Valid()
      modifies scopes
      ensures Valid() && fresh(scopes.banks - old(scopes.banks))
      ensures PrincipalOf(ctx) in scopes.planes && scopes.planes[PrincipalOf(ctx)] == plane
      ensures plane.bank in scopes.banks
      ensures plane.bank.Memory() == S.MemoryOf(cfg, old(World()), PrincipalOf(ctx))
      ensures scopes.Memories() == old(scopes.Memories())[PrincipalOf(ctx) := plane.bank.Memory()]
    {
      plane := scopes.PlaneFor(ctx);
    }

    /** A call put to one conversation's plane touches the store, the book and that
        conversation's bank. */
    method PutTo(p: Principal, op: Op, ghost w: S.World, ghost mine: BankMemory) returns (reply: Reply)
      requires Valid() && p in scopes.planes && scopes.planes[p].bank.Memory() == mine
      requires Durably() == w.d && scopes.Memories() == w.memories[p := mine]
      modifies store, book, store.intents.Values, scopes.planes[p].bank
      ensures Valid() && fresh(store.intents.Values - old(store.intents.Values))
      ensures var effect := EffectOf(cfg, w.d, mine, op);
        Stands(ApplyAll(w.d, effect.script), w.memories[p := effect.memory]) && reply == effect.reply
    {
      hide ApplyAll, EffectOf;
      var plane := scopes.planes[p];
      reply := plane.Call(op);
      scopes.OneMemoryChanged(p);
      MemorySetTwice(w.memories, p, mine, plane.bank.Memory());
    }

    /** A call from a conversation goes to its own plane. */
    method Handle(ctx: Context, op: Op, ghost w: S.World) returns (reply: Reply)
      requires Valid() && w == World()
      modifies scopes, scopes.banks, store, store.intents.Values, book
      ensures Valid()
      ensures fresh(scopes.banks - old(scopes.banks)) && fresh(store.intents.Values - old(store.intents.Values))
      ensures var effect := EffectOf(cfg, w.d, S.MemoryOf(cfg, w, PrincipalOf(ctx)), op);
        && Stands(ApplyAll(w.d, effect.script), w.memories[PrincipalOf(ctx) := effect.memory])
        && reply == effect.reply
    {
      hide ApplyAll, EffectOf, S.MemoryOf, PrincipalOf;
      hide Scopes.Valid, Scopes.Memories, MemoryStore.Valid;
      var plane := Scope(ctx);
      reply := PutTo(PrincipalOf(ctx), op, w, S.MemoryOf(cfg, w, PrincipalOf(ctx)));
    }

    /** A call from a conversation, and the clock it read. */
    method Serve(op: Op) returns (reply: Reply)
      requires Valid() && !op.SweepOp?
      modifies this, scopes, scopes.banks, store, store.intents.Values, book
      ensures Valid() && scopes == old(scopes)
      ensures fresh(scopes.banks - old(scopes.banks)) && fresh(store.intents.Values - old(store.intents.Values))
      ensures World() == S.Next(cfg, old(World()), S.Done(op))
      ensures reply == S.EffectIn(cfg, old(World()), op).reply
    {
      hide ApplyAll, EffectOf, S.Next, S.EffectIn, S.MemoryOf, Scopes.Valid, Scopes.Memories, MemoryStore.Valid;
      ghost var w := World();
      OneCall(cfg, w, op);
      reply := Handle(op.ctx, op, w);
      Tell(op, S.Next(cfg, w, S.Done(op)));
    }

    /** The same for a confirmation that may die in the bank call. */
    method PutAtRisk(p: Principal, op: Op, crash: CrashAt, ghost w: S.World, ghost mine: BankMemory)
      returns (reply: Option<Reply>)
      requires Valid() && op.ConfirmOp? && p in scopes.planes && scopes.planes[p].bank.Memory() == mine
      requires mine == S.MemoryOf(cfg, w, PrincipalOf(op.ctx))
      requires Durably() == w.d && scopes.Memories() == w.memories[p := mine]
      modifies store, book, store.intents.Values, scopes.planes[p].bank
      ensures Valid() && store.intents == old(store.intents)
      ensures reply.None? <==> Fatal(cfg, w, op, crash)
      ensures reply.None? ==> Durably() == ApplyAll(w.d, LeftBy(cfg, w, op, crash))
      ensures reply.Some? ==>
        var effect := EffectOf(cfg, w.d, mine, op);
        Stands(ApplyAll(w.d, effect.script), w.memories[p := effect.memory]) && reply.value == effect.reply
    {
      hide ApplyAll, ConfirmPix, Reaches, PaymentCall, Remains, S.MemoryOf;
      var plane := scopes.planes[p];
      reply := plane.Confirm(op.ctx, op.token, op.t1, op.t2, op.payment, Some(crash));
      scopes.OneMemoryChanged(p);
      MemorySetTwice(w.memories, p, mine, plane.bank.Memory());
    }

    /** A confirmation goes to its own plane, to be answered or to die there. */
    method Risk(op: Op, crash: CrashAt, ghost w: S.World) returns (reply: Option<Reply>)
      requires Valid() && op.ConfirmOp? && w == World()
      modifies scopes, scopes.banks, store, store.intents.Values, book
      ensures Valid() && store.intents == old(store.intents)
      ensures fresh(scopes.banks - old(scopes.banks))
      ensures reply.None? <==> Fatal(cfg, w, op, crash)
      ensures reply.None? ==> Durably() == ApplyAll(w.d, LeftBy(cfg, w, op, crash))
      ensures reply.Some? ==>
        var p := S.PrincipalOn(op);
        var effect := EffectOf(cfg, w.d, S.MemoryOf(cfg, w, p), op);
        Stands(ApplyAll(w.d, effect.script), w.memories[p := effect.memory]) && reply.value == effect.reply
    {
      hide ApplyAll, EffectOf, S.MemoryOf, S.Next, Fatal, LeftBy, Scopes.Valid, Scopes.Memories, MemoryStore.Valid;
      var plane := Scope(op.ctx);
      reply := PutAtRisk(S.PrincipalOn(op), op, crash, w, S.MemoryOf(cfg, w, S.PrincipalOn(op)));
    }

    /** The next process, after the last one died in `op`. */
    method Rise(op: Op, ghost w: S.World)
      requires Valid() && Durably() == w.d && w.memories == map[] && w.now == S.Later(op, now)
      modifies this
      ensures Valid() && fresh(scopes) && scopes.banks == {}
      ensures World() == w
    {
      StartUp();
      Tell(op, w);
    }

    /** A confirmation the process may not survive: what it wrote stays, and everything
        held in memory goes. */
    method Endanger(op: Op, crash: CrashAt) returns (reply: Option<Reply>)
      requires Valid() && op.ConfirmOp?
      modifies this, scopes, scopes.banks, store, store.intents.Values, book
      ensures Valid() && store.intents == old(store.intents)
      ensures scopes == old(scopes) || fresh(scopes)
      ensures fresh(scopes.banks - old(scopes.banks))
      ensures World() == S.Next(cfg, old(World()), StepOf(cfg, old(World()), Die(op, crash)))
      ensures reply == ReplyTo(cfg, old(World()), Die(op, crash))
    {
      hide ApplyAll, EffectOf, S.Next, S.EffectIn, S.MemoryOf, Fatal, LeftBy, StepOf, ReplyTo, S.PrincipalOn;
      hide Scopes.Valid, Scopes.Memories, MemoryStore.Valid;
      ghost var w := World();
      OneCall(cfg, w, op);
      OneCrash(cfg, w, op, crash);
      reply := Risk(op, crash, w);
      ghost var w' := S.Next(cfg, w, StepOf(cfg, w, Die(op, crash)));
      if reply.None? {
        Rise(op, w');
      } else {
        Tell(op, w');
      }
    }

    /** A call that is answered. */
    method Respond(op: Op) returns (reply: Reply)
      requires Valid()
      modifies this, scopes, scopes.banks, store, store.intents.Values, book
      ensures Valid() && scopes == old(scopes)
      ensures fresh(scopes.banks - old(scopes.banks)) && fresh(store.intents.Values - old(store.intents.Values))
      ensures World() == S.Next(cfg, old(World()), S.Done(op))
      ensures reply == S.EffectIn(cfg, old(World()), op).reply
    {
      hide S.Next, S.EffectIn;
      if op.SweepOp? {
        reply := Sweep();
      } else {
        reply := Serve(op);
      }
    }

    /** Only a confirmation comes to the bank call. */
    method RespondOrDie(op: Op, crash: CrashAt) returns (reply: Option<Reply>)
      requires Valid()
      modifies this, scopes, scopes.banks, store, store.intents.Values, book
      ensures Valid() && (scopes == old(scopes) || fresh(scopes))
      ensures fresh(scopes.banks - old(scopes.banks)) && fresh(store.intents.Values - old(store.intents.Values))
      ensures World() == S.Next(cfg, old(World()), StepOf(cfg, old(World()), Die(op, crash)))
      ensures reply == ReplyTo(cfg, old(World()), Die(op, crash))
    {
      hide S.Next, S.EffectIn, Reaches, LeftBy;
      if op.ConfirmOp? {
        reply := Endanger(op, crash);
      } else {
        var answer := Respond(op);
        reply := Some(answer);
      }
    }

    /** One command is one step of the serial system. */
    method Execute(c: Command) returns (reply: Option<Reply>)
      requires Valid()
      modifies this, scopes, scopes.banks, store, store.intents.Values, book
      ensures Valid() && (scopes == old(scopes) || fresh(scopes))
      ensures fresh(scopes.banks - old(scopes.banks)) && fresh(store.intents.Values - old(store.intents.Values))
      ensures World() == S.Next(cfg, old(World()), StepOf(cfg, old(World()), c))
      ensures reply == ReplyTo(cfg, old(World()), c)
    {
      hide S.Next, S.EffectIn, Fatal, LeftBy;
      match c
      case Do(op) =>
        var answer := Respond(op);
        reply := Some(answer);
      case Die(op, crash) => reply := RespondOrDie(op, crash);
      case Reboot =>
        StartUp();
        reply := None;
      case Rewrite(id, action) =>
        RewriteAction(id, action);
        reply := None;
    }

    /** From birth, the live service is at all times where the serial system is, and
        answers as it does. */
    method Run(commands: seq<Command>) returns (replies: seq<Option<Reply>>)
      requires Valid() && Newborn()
      modifies this, scopes, scopes.banks, store, store.intents.Values, book
      ensures Valid()
      ensures World() == S.Run(cfg, StepsOf(cfg, commands))
      ensures replies == RepliesOf(cfg, commands)
    {
      hide StepOf, ReplyTo, S.Next, StepsOf, RepliesOf, S.Run;
      hide Scopes.Valid, Scopes.Memories, MemoryStore.Valid, Newborn;
      NewbornIsBirth();
      NoneYet(cfg);
      assert commands[..0] == [];
      replies := [];
      var i := 0;
      while i < |commands|
        invariant 0 <= i <= |commands|
        invariant Valid() && (scopes == old(scopes) || fresh(scopes))
        invariant fresh(scopes.banks - old(scopes.banks))
        invariant fresh(store.intents.Values - old(store.intents.Values))
        invariant World() == S.Run(cfg, StepsOf(cfg, commands[..i]))
        invariant replies == RepliesOf(cfg, commands[..i])
      {
        OneMore(cfg, commands, i);
        var reply := Execute(commands[i]);
        replies := replies + [reply];
        i := i + 1;
      }
      assert commands[..i] == commands;
    }
  }
}
