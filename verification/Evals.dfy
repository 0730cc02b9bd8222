/** The eval runner: a case is driven turn by turn and scored, and whatever fails on the
    way it still owes a result for every check it declared (src/trail/evals/runner.py,
    src/trail/evals/cases.py, src/trail/evals/metrics.py). */
module Evals {
  import opened Actions

  datatype Check = Check(name: string, metric: string)

  /** `turnChecks` is a dictionary from turn index to checks: its items in order. */
  datatype Case = Case(turns: seq<string>, checks: seq<Check>, turnChecks: seq<(int, seq<Check>)>)

  datatype Finding = Finding(turn: nat, kind: string, check: string)

  /** `group` is the turn a per-turn check judged, `None` for the last-turn checks. */
  datatype CheckResult = CheckResult(group: Option<nat>, name: string, metric: string, passed: bool)

  /** `observed` are the turns driven. */
  datatype CaseOutcome = CaseOutcome(observed: seq<nat>, findings: seq<Finding>, checks: seq<CheckResult>)

  /** What driving one turn came to, and what running one check did. `Unusable` is a
      check that returns what is not a list of findings. */
  datatype TurnRun = Answered | Errored | Broke
  datatype CheckRun = Produced(findings: seq<Finding>) | Raises | Unusable

  /** Everything outside the harness's control: whether the thread opens, what each turn
      comes to, what each check does at its group and place. */
  datatype World = World(opens: bool, turn: nat -> TurnRun, check: (Option<nat>, nat) -> CheckRun)

  predicate IsDictionary(turnChecks: seq<(int, seq<Check>)>) {
    forall i, j | 0 <= i < j < |turnChecks| :: turnChecks[i].0 != turnChecks[j].0
  }

  function ChecksFor(turnChecks: seq<(int, seq<Check>)>, turn: int): seq<Check> {
    if turnChecks == [] then []
    else if turnChecks[0].0 == turn then turnChecks[0].1
    else ChecksFor(turnChecks[1..], turn)
  }

  function AllTurnChecks(turnChecks: seq<(int, seq<Check>)>): seq<Check> {
    if turnChecks == [] then [] else turnChecks[0].1 + AllTurnChecks(turnChecks[1..])
  }

  function AllChecks(c: Case): seq<Check> {
    c.checks + AllTurnChecks(c.turnChecks)
  }

  // ---------------------------------------------------------------- what is recorded

  function Verdict(world: World, group: Option<nat>, place: nat): bool {
    world.check(group, place) == Produced([])
  }

  /** One result a check, in order; the check passed when it found nothing. */
  function Results(world: World, group: Option<nat>, checks: seq<Check>): seq<CheckResult> {
    seq(|checks|, i requires 0 <= i < |checks| =>
      CheckResult(group, checks[i].name, checks[i].metric, Verdict(world, group, i)))
  }

  predicate Usable(world: World, group: Option<nat>, checks: seq<Check>) {
    forall i | 0 <= i < |checks| :: !world.check(group, i).Unusable?
  }

  function TurnResults(c: Case, world: World, n: nat): seq<CheckResult> {
    if n == 0 then []
    else TurnResults(c, world, n - 1) + Results(world, Some(n - 1), ChecksFor(c.turnChecks, n - 1))
  }

  predicate TurnGoes(c: Case, world: World, i: nat) {
    world.turn(i).Answered? && Usable(world, Some(i), ChecksFor(c.turnChecks, i))
  }

  /** The conversation is held and scored to its end. */
  predicate Completes(c: Case, world: World) {
    && world.opens && c.turns != []
    && (forall i | 0 <= i < |c.turns| :: TurnGoes(c, world, i))
    && Usable(world, None, c.checks)
  }

  /** The case asks a check there: at its last turn, or keyed by one of its turns. */
  ghost predicate Asks(c: Case, group: Option<nat>, place: nat) {
    match group
    case None => place < |c.checks|
    case Some(i) => i < |c.turns| && exists k | 0 <= k < |c.turnChecks| ::
        c.turnChecks[k].0 == i && place < |c.turnChecks[k].1|
  }

  function AllFailed(checks: seq<Check>): seq<CheckResult> {
    seq(|checks|, i requires 0 <= i < |checks| => CheckResult(None, checks[i].name, checks[i].metric, false))
  }

  function Recorded(c: Case, world: World): seq<CheckResult> {
    if Completes(c, world) then TurnResults(c, world, |c.turns|) + Results(world, None, c.checks)
    else AllFailed(AllChecks(c))
  }

  /** A check passes exactly when it runs and finds nothing. */
  predicate Passes(world: World, group: Option<nat>, place: nat) {
    var run := world.check(group, place);
    run.Produced? && |run.findings| == 0
  }

  function Judged(world: World, group: Option<nat>, checks: seq<Check>, i: nat): CheckResult
    requires i < |checks|
  {
    CheckResult(group, checks[i].name, checks[i].metric, Passes(world, group, i))
  }

  /** A check that raises leaves one error in its own name, any other what it produced. */
  predicate Finds(world: World, turn: nat, group: Option<nat>, checks: seq<Check>, i: nat, f: Finding)
    requires i < |checks|
  {
    match world.check(group, i)
    case Raises => f == Finding(turn, "ERROR", checks[i].name)
    case Produced(findings) => f in findings
    case Unusable => false
  }

  // ---------------------------------------------------------------- the harness

  /** `usable` is false when collecting the findings raised. */
  method ApplyChecks(world: World, turn: nat, group: Option<nat>, checks: seq<Check>)
    returns (usable: bool, findings: seq<Finding>, results: seq<CheckResult>)
    ensures usable <==> Usable(world, group, checks)
    ensures usable ==> results == Results(world, group, checks)
    ensures usable ==> (findings == [] <==> forall r | r in results :: r.passed)
    ensures usable ==> |results| == |checks| && forall i | 0 <= i < |checks| ::
        results[i] == Judged(world, group, checks, i)
    ensures usable ==> forall f :: f in findings <==> exists i | 0 <= i < |checks| ::
        Finds(world, turn, group, checks, i, f)
  {
    findings, results := [], [];
    var i := 0;
    while i < |checks|
      invariant 0 <= i <= |checks|
      invariant Usable(world, group, checks[..i])
      invariant results == Results(world, group, checks[..i])
      invariant findings == [] <==> forall r | r in results :: r.passed
      invariant forall f :: f in findings <==> exists j | 0 <= j < i :: Finds(world, turn, group, checks, j, f)
    {
      ghost var before := findings;
      var check, produced := checks[i], world.check(group, i);
      if produced.Unusable? {
        return false, findings, results;
      }
      var found := if produced.Raises? then [Finding(turn, "ERROR", check.name)] else produced.findings;
      findings := findings + found;
      results := results + [CheckResult(group, check.name, check.metric, found == [])];
      assert forall f :: f in found <==> Finds(world, turn, group, checks, i, f);
      assert forall f :: f in findings <==> f in before || f in found;
      i := i + 1;
    }
    assert checks[..i] == checks;
    return true, findings, results;
  }

  method FailedEverything(c: Case, turn: nat) returns (outcome: CaseOutcome)
    ensures outcome == CaseOutcome([turn], [Finding(turn, "ERROR", "turn")], AllFailed(AllChecks(c)))
  {
    outcome := CaseOutcome([turn], [Finding(turn, "ERROR", "turn")], AllFailed(AllChecks(c)));
  }

  method RunCase(c: Case, world: World) returns (outcome: CaseOutcome)
    ensures outcome.checks == Recorded(c, world)
    ensures !Completes(c, world)
        ==> |outcome.observed| == 1 && |outcome.findings| == 1 && outcome.findings[0].kind == "ERROR"
    ensures Completes(c, world) ==> |outcome.observed| == |c.turns|
    ensures Completes(c, world) ==> (outcome.findings == [] <==> forall r | r in outcome.checks :: r.passed)
  {
    if !world.opens {
      outcome := FailedEverything(c, 0);
      return;
    }
    var observed: seq<nat>, findings: seq<Finding>, results: seq<CheckResult> := [], [], [];
    var index := 0;
    while index < |c.turns|
      invariant 0 <= index <= |c.turns| && |observed| == index
      invariant index > 0 ==> observed[index - 1] == index - 1
      invariant forall i | 0 <= i < index :: TurnGoes(c, world, i)
      invariant results == TurnResults(c, world, index)
      invariant findings == [] <==> forall r | r in results :: r.passed
    {
      match world.turn(index) {
        case Broke =>
          assert !TurnGoes(c, world, index);
          outcome := FailedEverything(c, if observed != [] then observed[|observed| - 1] else 0);
          return;
        case Errored =>
          assert !TurnGoes(c, world, index);
          outcome := FailedEverything(c, index);
          return;
        case Answered =>
      }
      observed := observed + [index];
      var usable, turnFindings, turnResults := ApplyChecks(world, index, Some(index), ChecksFor(c.turnChecks, index));
      if !usable {
        assert !TurnGoes(c, world, index);
        outcome := FailedEverything(c, index);
        return;
      }
      findings := findings + turnFindings;
      results := results + turnResults;
      index := index + 1;
    }
    if observed == [] {
      outcome := FailedEverything(c, 0);
      return;
    }
    var usable, lastFindings, lastResults := ApplyChecks(world, observed[|observed| - 1], None, c.checks);
    if !usable {
      outcome := FailedEverything(c, observed[|observed| - 1]);
      return;
    }
    return CaseOutcome(observed, findings + lastFindings, results + lastResults);
  }

  // ---------------------------------------------------------------- what each recorded result is

  lemma ResultsAre(world: World, group: Option<nat>, checks: seq<Check>, r: CheckResult)
    ensures r in Results(world, group, checks) <==> exists j | 0 <= j < |checks| :: r == Judged(world, group, checks, j)
  {
    var results := Results(world, group, checks);
    forall j | 0 <= j < |checks|
      ensures results[j] == Judged(world, group, checks, j)
    {
    }
  }

  /** The result of a check keyed by this turn. */
  ghost predicate OfTurn(c: Case, world: World, i: nat, r: CheckResult) {
    exists k | 0 <= k < |c.turnChecks| :: c.turnChecks[k].0 == i && OfChecks(world, i, c.turnChecks[k].1, r)
  }

  ghost predicate OfChecks(world: World, i: nat, checks: seq<Check>, r: CheckResult) {
    exists j | 0 <= j < |checks| :: r == Judged(world, Some(i), checks, j)
  }

  lemma {:induction false} ChecksForIs(turnChecks: seq<(int, seq<Check>)>, turn: int)
    requires IsDictionary(turnChecks)
    ensures forall k | 0 <= k < |turnChecks| && turnChecks[k].0 == turn ::
        ChecksFor(turnChecks, turn) == turnChecks[k].1
    ensures (forall k | 0 <= k < |turnChecks| :: turnChecks[k].0 != turn) ==> ChecksFor(turnChecks, turn) == []
  {
    if turnChecks != [] {
      ChecksForIs(turnChecks[1..], turn);
      assert forall k | 0 < k < |turnChecks| :: turnChecks[k] == turnChecks[1..][k - 1];
    }
  }

  lemma OfTurnIs(c: Case, world: World, i: nat, r: CheckResult)
    requires IsDictionary(c.turnChecks)
    ensures OfTurn(c, world, i, r) <==> r in Results(world, Some(i), ChecksFor(c.turnChecks, i))
  {
    ChecksForIs(c.turnChecks, i);
    ResultsAre(world, Some(i), ChecksFor(c.turnChecks, i), r);
    hide Results, ChecksFor;
    if forall k | 0 <= k < |c.turnChecks| :: c.turnChecks[k].0 != i {
    } else {
      var k :| 0 <= k < |c.turnChecks| && c.turnChecks[k].0 == i;
      assert OfTurn(c, world, i, r) <==> OfChecks(world, i, c.turnChecks[k].1, r);
    }
  }

  lemma {:induction false} TurnResultsAre(c: Case, world: World, n: nat, r: CheckResult)
    requires IsDictionary(c.turnChecks)
    ensures r in TurnResults(c, world, n) <==> exists i: nat | i < n :: OfTurn(c, world, i, r)
  {
    if n > 0 {
      TurnResultsAre(c, world, n - 1, r);
      OfTurnIs(c, world, n - 1, r);
      hide OfTurn, Results;
      assert r in TurnResults(c, world, n)
        <==> r in TurnResults(c, world, n - 1) || r in Results(world, Some(n - 1), ChecksFor(c.turnChecks, n - 1));
    }
  }

  /** A completed case records, of every check keyed by one of its turns and every last-turn
      check, whether it passed there, and nothing else; any other, every check as failed. */
  lemma RecordedAre(c: Case, world: World, r: CheckResult)
    requires IsDictionary(c.turnChecks)
    ensures Completes(c, world) ==>
      (r in Recorded(c, world) <==> || (exists i: nat | i < |c.turns| :: OfTurn(c, world, i, r))
                                    || (exists j | 0 <= j < |c.checks| :: r == Judged(world, None, c.checks, j)))
    ensures !Completes(c, world) ==>
      (r in Recorded(c, world) <==> exists check | check in AllChecks(c) ::
       r == CheckResult(None, check.name, check.metric, false))
  {
    TurnResultsAre(c, world, |c.turns|, r);
    ResultsAre(world, None, c.checks, r);
    var all := AllChecks(c);
    forall i | 0 <= i < |all|
      ensures AllFailed(all)[i] == CheckResult(None, all[i].name, all[i].metric, false)
    {
    }
    hide OfTurn, Results, TurnResults, Completes;
  }

  /** A case completes exactly when its thread opens, it has turns, every one is answered,
      and no check it asks returns what is not a list; one that raises does not stop it. */
  lemma CompletesExactly(c: Case, world: World)
    requires IsDictionary(c.turnChecks)
    ensures Completes(c, world) <==>
      && world.opens && c.turns != [] && (forall i | 0 <= i < |c.turns| :: world.turn(i) == Answered)
      && forall group, place | Asks(c, group, place) :: !world.check(group, place).Unusable?
  {
    forall i: nat, place: nat
      ensures Asks(c, Some(i), place) <==> i < |c.turns| && place < |ChecksFor(c.turnChecks, i)|
    {
      ChecksForIs(c.turnChecks, i);
    }
    if Completes(c, world) {
      forall i | 0 <= i < |c.turns|
        ensures world.turn(i) == Answered
      {
        assert TurnGoes(c, world, i);
      }
      forall group, place | Asks(c, group, place)
        ensures !world.check(group, place).Unusable?
      {
        if group.Some? {
          assert TurnGoes(c, world, group.value);
        }
      }
    } else if world.opens && c.turns != [] && forall i | 0 <= i < |c.turns| :: world.turn(i) == Answered {
      if !Usable(world, None, c.checks) {
        var i :| 0 <= i < |c.checks| && world.check(None, i).Unusable?;
        assert Asks(c, None, i);
      } else {
        var i :| 0 <= i < |c.turns| && !TurnGoes(c, world, i);
        var place :| 0 <= place < |ChecksFor(c.turnChecks, i)| && world.check(Some(i), place).Unusable?;
        assert Asks(c, Some(i), place);
      }
    }
  }

  // ---------------------------------------------------------------- rates

  function Total(results: seq<CheckResult>, metric: string): nat {
    if results == [] then 0
    else Total(results[..|results| - 1], metric) + if results[|results| - 1].metric == metric then 1 else 0
  }

  function Declared(checks: seq<Check>, metric: string): nat {
    if checks == [] then 0
    else Declared(checks[..|checks| - 1], metric) + if checks[|checks| - 1].metric == metric then 1 else 0
  }

  function Passed(results: seq<CheckResult>, metric: string): nat {
    if results == [] then 0
    else
      var last := results[|results| - 1];
      Passed(results[..|results| - 1], metric) + if last.metric == metric && last.passed then 1 else 0
  }

  /** `_check_rate`: passed and total, over every recorded result that joins a metric. */
  function CheckRate(recorded: seq<seq<CheckResult>>, metric: string): (int, int) {
    if recorded == [] then (0, 0)
    else
      var before, last := CheckRate(recorded[..|recorded| - 1], metric), recorded[|recorded| - 1];
      (before.0 + Passed(last, metric), before.1 + Total(last, metric))
  }

  lemma {:induction false} TotalConcat(a: seq<CheckResult>, b: seq<CheckResult>, metric: string)
    ensures Total(a + b, metric) == Total(a, metric) + Total(b, metric)
    decreases |b|
  {
    if b == [] {
      assert a + b == a;
    } else {
      assert (a + b)[..|a + b| - 1] == a + b[..|b| - 1];
      TotalConcat(a, b[..|b| - 1], metric);
    }
  }

  lemma {:induction false} PassedConcat(a: seq<CheckResult>, b: seq<CheckResult>, metric: string)
    ensures Passed(a + b, metric) == Passed(a, metric) + Passed(b, metric)
    decreases |b|
  {
    if b == [] {
      assert a + b == a;
    } else {
      assert (a + b)[..|a + b| - 1] == a + b[..|b| - 1];
      PassedConcat(a, b[..|b| - 1], metric);
    }
  }

  /** Every recorded result, case after case. */
  function Flat(recorded: seq<seq<CheckResult>>): seq<CheckResult> {
    if recorded == [] then [] else Flat(recorded[..|recorded| - 1]) + recorded[|recorded| - 1]
  }

  function Joining(results: seq<CheckResult>, metric: string): set<nat> {
    set i: nat | i < |results| && results[i].metric == metric
  }

  function Passing(results: seq<CheckResult>, metric: string): set<nat> {
    set i: nat | i < |results| && results[i].metric == metric && results[i].passed
  }

  lemma JoiningSnoc(results: seq<CheckResult>, n: nat, metric: string)
    requires n + 1 == |results|
    ensures Joining(results, metric)
         == Joining(results[..n], metric) + if results[n].metric == metric then {n} else {}
  {
  }

  lemma PassingSnoc(results: seq<CheckResult>, n: nat, metric: string)
    requires n + 1 == |results|
    ensures Passing(results, metric)
         == Passing(results[..n], metric) + if results[n].metric == metric && results[n].passed then {n} else {}
  {
  }

  lemma {:induction false} Counted(results: seq<CheckResult>, metric: string)
    ensures Total(results, metric) == |Joining(results, metric)|
    ensures Passed(results, metric) == |Passing(results, metric)|
  {
    if results != [] {
      var n := |results| - 1;
      Counted(results[..n], metric);
      JoiningSnoc(results, n, metric);
      PassingSnoc(results, n, metric);
      assert n !in Joining(results[..n], metric) && n !in Passing(results[..n], metric);
      hide Joining, Passing;
    }
  }

  lemma {:induction false} RateOfFlat(recorded: seq<seq<CheckResult>>, metric: string)
    ensures CheckRate(recorded, metric) == (Passed(Flat(recorded), metric), Total(Flat(recorded), metric))
  {
    if recorded != [] {
      var n := |recorded| - 1;
      RateOfFlat(recorded[..n], metric);
      PassedConcat(Flat(recorded[..n]), recorded[n], metric);
      TotalConcat(Flat(recorded[..n]), recorded[n], metric);
    }
  }

  /** A rate counts, of all the recorded results that join the metric, those that passed. */
  lemma RatesCount(recorded: seq<seq<CheckResult>>, metric: string)
    ensures var all := Flat(recorded);
      CheckRate(recorded, metric) == (|Passing(all, metric)|, |Joining(all, metric)|)
  {
    RateOfFlat(recorded, metric);
    Counted(Flat(recorded), metric);
  }

  lemma {:induction false} DeclaredConcat(a: seq<Check>, b: seq<Check>, metric: string)
    ensures Declared(a + b, metric) == Declared(a, metric) + Declared(b, metric)
    decreases |b|
  {
    if b == [] {
      assert a + b == a;
    } else {
      assert (a + b)[..|a + b| - 1] == a + b[..|b| - 1];
      DeclaredConcat(a, b[..|b| - 1], metric);
    }
  }

  /** Whatever the checks did, a group records what it declares. */
  lemma {:induction false} ResultsTotal(world: World, group: Option<nat>, checks: seq<Check>, metric: string)
    ensures Total(Results(world, group, checks), metric) == Declared(checks, metric)
    ensures Total(AllFailed(checks), metric) == Declared(checks, metric)
    ensures Passed(AllFailed(checks), metric) == 0
    decreases |checks|
  {
    if checks != [] {
      var before := checks[..|checks| - 1];
      ResultsTotal(world, group, before, metric);
      assert Results(world, group, checks)[..|checks| - 1] == Results(world, group, before);
      assert AllFailed(checks)[..|checks| - 1] == AllFailed(before);
    }
  }

  /** What the turns of a completed case are asked, counted turn by turn. */
  function AskedInTurns(turnChecks: seq<(int, seq<Check>)>, n: nat, metric: string): nat {
    if n == 0 then 0 else AskedInTurns(turnChecks, n - 1, metric) + Declared(ChecksFor(turnChecks, n - 1), metric)
  }

  lemma {:induction false} TurnsTotal(c: Case, world: World, n: nat, metric: string)
    ensures Total(TurnResults(c, world, n), metric) == AskedInTurns(c.turnChecks, n, metric)
  {
    if n > 0 {
      TurnsTotal(c, world, n - 1, metric);
      ResultsTotal(world, Some(n - 1), ChecksFor(c.turnChecks, n - 1), metric);
      TotalConcat(TurnResults(c, world, n - 1), Results(world, Some(n - 1), ChecksFor(c.turnChecks, n - 1)), metric);
    }
  }

  /** What is declared under an index no turn has. */
  function Stray(turnChecks: seq<(int, seq<Check>)>, n: nat, metric: string): nat {
    if turnChecks == [] then 0
    else (if 0 <= turnChecks[0].0 < n then 0 else Declared(turnChecks[0].1, metric)) + Stray(turnChecks[1..], n, metric)
  }

  lemma {:induction false} NotAKey(turnChecks: seq<(int, seq<Check>)>, turn: int)
    requires forall i | 0 <= i < |turnChecks| :: turnChecks[i].0 != turn
    ensures ChecksFor(turnChecks, turn) == []
  {
    if turnChecks != [] {
      NotAKey(turnChecks[1..], turn);
    }
  }

  lemma {:induction false} FirstItemAsked(turnChecks: seq<(int, seq<Check>)>, n: nat, metric: string)
    requires turnChecks != [] && IsDictionary(turnChecks)
    ensures AskedInTurns(turnChecks, n, metric)
         == AskedInTurns(turnChecks[1..], n, metric)
           + if 0 <= turnChecks[0].0 < n then Declared(turnChecks[0].1, metric) else 0
    decreases n
  {
    if n > 0 {
      FirstItemAsked(turnChecks, n - 1, metric);
      if turnChecks[0].0 == n - 1 {
        NotAKey(turnChecks[1..], n - 1);
      }
    }
  }

  /** Turn by turn or item by item, the same checks, but for the stray ones. */
  lemma {:induction false} AskedAndStray(turnChecks: seq<(int, seq<Check>)>, n: nat, metric: string)
    requires IsDictionary(turnChecks)
    ensures AskedInTurns(turnChecks, n, metric) + Stray(turnChecks, n, metric)
        == Declared(AllTurnChecks(turnChecks), metric)
    decreases |turnChecks|
  {
    if turnChecks == [] {
      AskedNothing(n, metric);
    } else {
      AskedAndStray(turnChecks[1..], n, metric);
      FirstItemAsked(turnChecks, n, metric);
      DeclaredConcat(turnChecks[0].1, AllTurnChecks(turnChecks[1..]), metric);
    }
  }

  lemma {:induction false} AskedNothing(n: nat, metric: string)
    ensures AskedInTurns([], n, metric) == 0
  {
    if n > 0 {
      AskedNothing(n - 1, metric);
    }
  }

  /** What a case records under a metric, whatever happened to it: all it declares, less
      the stray checks when it ran to its end. */
  lemma RecordedTotal(c: Case, world: World, metric: string)
    requires IsDictionary(c.turnChecks)
    ensures Total(Recorded(c, world), metric)
         == Declared(AllChecks(c), metric)
            - if Completes(c, world) then Stray(c.turnChecks, |c.turns|, metric) else 0
  {
    var n := |c.turns|;
    ResultsTotal(world, None, AllChecks(c), metric);
    TurnsTotal(c, world, n, metric);
    ResultsTotal(world, None, c.checks, metric);
    TotalConcat(TurnResults(c, world, n), Results(world, None, c.checks), metric);
    AskedAndStray(c.turnChecks, n, metric);
    DeclaredConcat(c.checks, AllTurnChecks(c.turnChecks), metric);
  }

  /** Every per-turn check sits under the index of a turn the case has. */
  predicate WellKeyed(c: Case) {
    forall i | 0 <= i < |c.turnChecks| :: c.turnChecks[i].1 != [] ==> 0 <= c.turnChecks[i].0 < |c.turns|
  }

  lemma {:induction false} NothingStray(turnChecks: seq<(int, seq<Check>)>, n: nat, metric: string)
    requires forall i | 0 <= i < |turnChecks| :: turnChecks[i].1 != [] ==> 0 <= turnChecks[i].0 < n
    ensures Stray(turnChecks, n, metric) == 0
  {
    if turnChecks != [] {
      NothingStray(turnChecks[1..], n, metric);
    }
  }

  lemma {:induction false} SomethingStray(turnChecks: seq<(int, seq<Check>)>, n: nat, k: nat)
    requires k < |turnChecks| && turnChecks[k].1 != [] && !(0 <= turnChecks[k].0 < n)
    ensures Stray(turnChecks, n, turnChecks[k].1[|turnChecks[k].1| - 1].metric) > 0
    decreases |turnChecks|
  {
    if k > 0 {
      SomethingStray(turnChecks[1..], n, k - 1);
    }
  }

  /** A metric's denominator does not depend on what fails exactly when every per-turn
      check is keyed by a turn the case has, or the case has no turns and so always fails. */
  lemma TotalsIgnoreFailures(c: Case)
    requires IsDictionary(c.turnChecks)
    ensures (forall world: World, metric :: Total(Recorded(c, world), metric) == Declared(AllChecks(c), metric))
       <==> c.turns == [] || WellKeyed(c)
  {
    var n := |c.turns|;
    if c.turns == [] || WellKeyed(c) {
      forall world: World, metric
        ensures Total(Recorded(c, world), metric) == Declared(AllChecks(c), metric)
      {
        RecordedTotal(c, world, metric);
        if WellKeyed(c) {
          NothingStray(c.turnChecks, n, metric);
        }
      }
    } else {
      var k :| 0 <= k < |c.turnChecks| && c.turnChecks[k].1 != [] && !(0 <= c.turnChecks[k].0 < n);
      var metric := c.turnChecks[k].1[|c.turnChecks[k].1| - 1].metric;
      var fine := World(true, _ => Answered, (_, _) => Produced([]));
      RecordedTotal(c, fine, metric);
      SomethingStray(c.turnChecks, n, k);
      assert Completes(c, fine);
    }
  }

  // ---------------------------------------------------------------- a golden set

  function RecordedBy(cases: seq<Case>, worlds: seq<World>): seq<seq<CheckResult>>
    requires |worlds| == |cases|
  {
    seq(|cases|, i requires 0 <= i < |cases| => Recorded(cases[i], worlds[i]))
  }

  function DeclaredBy(cases: seq<Case>, metric: string): int {
    if cases == [] then 0
    else DeclaredBy(cases[..|cases| - 1], metric) + Declared(AllChecks(cases[|cases| - 1]), metric)
  }

  predicate Sound(c: Case) {
    IsDictionary(c.turnChecks) && (c.turns == [] || WellKeyed(c))
  }

  lemma SoundTotal(c: Case, world: World, metric: string)
    requires Sound(c)
    ensures Passed(Recorded(c, world), metric) <= Total(Recorded(c, world), metric) == Declared(AllChecks(c), metric)
  {
    TotalsIgnoreFailures(c);
    PassedWithinTotal(Recorded(c, world), metric);
  }

  /** Over a sound golden set every rate has the denominator the set declares, and
      never more passes than that, whatever fails in whatever case. */
  lemma {:induction false} RatesKeepTheirDenominator(cases: seq<Case>, worlds: seq<World>, metric: string)
    requires |worlds| == |cases|
    requires forall c | c in cases :: Sound(c)
    ensures var rate := CheckRate(RecordedBy(cases, worlds), metric);
      rate.1 == DeclaredBy(cases, metric) && 0 <= rate.0 <= rate.1
    decreases |cases|
  {
    if cases != [] {
      hide Recorded, Sound, Passed, Total, Declared, AllChecks;
      var n := |cases| - 1;
      assert cases[n] in cases && forall x | x in cases[..n] :: x in cases;
      RatesKeepTheirDenominator(cases[..n], worlds[..n], metric);
      assert RecordedBy(cases, worlds)[..n] == RecordedBy(cases[..n], worlds[..n]);
      SoundTotal(cases[n], worlds[n], metric);
      assert RecordedBy(cases, worlds)[n] == Recorded(cases[n], worlds[n]);
    }
  }

  lemma {:induction false} PassedWithinTotal(results: seq<CheckResult>, metric: string)
    ensures Passed(results, metric) <= Total(results, metric)
  {
    if results != [] {
      PassedWithinTotal(results[..|results| - 1], metric);
    }
  }

  /** A case that did not complete passes nothing and still owes everything. */
  lemma FailureOwesEverything(c: Case, world: World, metric: string)
    requires !Completes(c, world)
    ensures Passed(Recorded(c, world), metric) == 0
    ensures Total(Recorded(c, world), metric) == Declared(AllChecks(c), metric)
  {
    ResultsTotal(world, None, AllChecks(c), metric);
  }
}
