/** The conversation index: one record a thread, owned by at most one customer
    (src/trail/runtime/threads.py). Instants stand for ISO timestamps. */
module Threads {
  import opened Actions
  import opened Policy
  import opened Text

  datatype Record = Record(title: string, turns: nat, createdAt: Instant, updatedAt: Instant, owner: Option<string>)

  /** The records, and the order the store hands them back in: first insertion. */
  datatype Index = Index(order: seq<Id>, records: map<Id, Record>)

  const NO_THREADS := Index([], map[])
  const TITLE_CHARS: nat := 60
  const SCAN_LIMIT: nat := 1000

  // ---------------------------------------------------------------- titles

  function Words(message: string): seq<string>
    decreases |message|
  {
    var rest := TrimLeft(message);
    if rest == "" then []
    else
      TrimLeftShortens(message);
      var n := WordLength(rest);
      [rest[..n]] + Words(rest[n..])
  }

  function WordLength(s: string): (n: nat)
    ensures n <= |s| && (s != "" && !IsSpace(s[0]) ==> n > 0)
  {
    if s == "" || IsSpace(s[0]) then 0 else 1 + WordLength(s[1..])
  }

  function TitleFrom(message: string): string {
    var line := Join(Words(message), " ");
    if |line| <= TITLE_CHARS then line else TrimRight(line[..TITLE_CHARS]) + "…"
  }

  predicate NoSpace(s: string) {
    forall i | 0 <= i < |s| :: !IsSpace(s[i])
  }

  function Interleaved(gaps: seq<string>, words: seq<string>): string
    requires |gaps| == |words| + 1
  {
    if words == [] then gaps[0] else gaps[0] + words[0] + Interleaved(gaps[1..], words[1..])
  }

  /** The words are the message's own, in order, cut at space and nowhere else. */
  ghost predicate CutAtSpace(message: string, words: seq<string>, gaps: seq<string>) {
    && |gaps| == |words| + 1 && message == Interleaved(gaps, words)
    && (forall i | 0 <= i < |words| :: words[i] != "" && NoSpace(words[i]))
    && (forall i | 0 <= i < |gaps| :: AllSpace(gaps[i]))
    && (forall i | 0 < i < |words| :: gaps[i] != "")
  }

  lemma {:induction false} WordLengthIs(s: string)
    ensures NoSpace(s[..WordLength(s)])
    ensures WordLength(s) < |s| ==> IsSpace(s[WordLength(s)])
  {
    if s != "" && !IsSpace(s[0]) {
      WordLengthIs(s[1..]);
      assert forall i | 0 < i < WordLength(s) :: s[..WordLength(s)][i] == s[1..][..WordLength(s[1..])][i - 1];
    }
  }

  lemma OneMoreWord(before: string, word: string, rest: string, words: seq<string>, gaps: seq<string>)
    requires AllSpace(before) && word != "" && NoSpace(word) && CutAtSpace(rest, words, gaps)
    requires rest != "" ==> IsSpace(rest[0])
    ensures CutAtSpace(before + word + rest, [word] + words, [before] + gaps)
  {
    assert ([before] + gaps)[1..] == gaps && ([word] + words)[1..] == words;
    if words != [] {
      assert rest == gaps[0] + words[0] + Interleaved(gaps[1..], words[1..]);
      assert rest[0] == (gaps[0] + words[0])[0];
    }
  }

  lemma NoWords(before: string)
    requires AllSpace(before)
    ensures CutAtSpace(before, [], [before])
  {
  }

  lemma {:induction false} WordsAre(message: string)
    ensures exists gaps :: CutAtSpace(message, Words(message), gaps)
    decreases |message|
  {
    hide CutAtSpace, TrimLeft, IsSpace, WordLength;
    var before := TrimLeftIs(message);
    var rest := TrimLeft(message);
    if rest == "" {
      NoWords(before);
      assert message == before + "" == before && Words(message) == [];
    } else {
      var n := WordLength(rest);
      TrimLeftShortens(message);
      WordLengthIs(rest);
      WordsAre(rest[n..]);
      var gaps :| CutAtSpace(rest[n..], Words(rest[n..]), gaps);
      OneMoreWord(before, rest[..n], rest[n..], Words(rest[n..]), gaps);
      assert message == before + rest[..n] + rest[n..];
      assert CutAtSpace(message, Words(message), [before] + gaps);
    }
  }

  /** The message's words a space apart; past sixty characters cut there, outer space off,
      and marked as cut. */
  ghost predicate TitledRightly(message: string, title: string) {
    exists words, gaps :: CutAtSpace(message, words, gaps) && TitleOf(Join(words, " "), title)
  }

  ghost predicate TitleOf(line: string, title: string) {
    && (|line| <= 60 ==> title == line)
    && (|line| > 60 ==> title != "" && title[|title| - 1] == '…'
                        && var kept := title[..|title| - 1];
                        && (kept == "" || !IsSpace(kept[|kept| - 1]))
                        && exists after :: line[..60] == kept + after && AllSpace(after))
  }

  lemma TitleIsCut(line: string)
    ensures TitleOf(line, if |line| <= TITLE_CHARS then line else TrimRight(line[..TITLE_CHARS]) + "…")
  {
    if |line| > TITLE_CHARS {
      var after := TrimRightIs(line[..TITLE_CHARS]);
      var kept := TrimRight(line[..TITLE_CHARS]);
      assert (kept + "…")[..|kept|] == kept;
    }
  }

  lemma TitleIsRight(message: string)
    ensures TitledRightly(message, TitleFrom(message))
  {
    hide CutAtSpace, Words, Join, TitleOf;
    WordsAre(message);
    var gaps :| CutAtSpace(message, Words(message), gaps);
    TitleIsCut(Join(Words(message), " "));
  }

  // ---------------------------------------------------------------- writes

  function Put(index: Index, id: Id, record: Record): Index {
    Index(if id in index.records then index.order else index.order + [id], index.records[id := record])
  }

  function Opened(index: Index, id: Id, customer: Option<string>, now: Instant): Index {
    Put(index, id, Record("", 0, now, now, customer))
  }

  function OwnerIn(index: Index, id: Id): Option<string> {
    if id in index.records then index.records[id].owner else None
  }

  /** Someone else speaking on an owned thread. */
  predicate Stranger(owner: Option<string>, customer: Option<string>) {
    owner.Some? && customer.Some? && owner != customer
  }

  function Spoken(index: Index, id: Id, message: string, customer: Option<string>, now: Instant): Record {
    if id in index.records then
      var r := index.records[id];
      Record(if r.title == "" then TitleFrom(message) else r.title, r.turns + 1, r.createdAt, now,
             if r.owner.Some? then r.owner else customer)
    else Record(TitleFrom(message), 1, now, now, customer)
  }

  function Turned(index: Index, id: Id, message: string, customer: Option<string>, now: Instant): Index {
    if Stranger(OwnerIn(index, id), customer) then index
    else Put(index, id, Spoken(index, id, message, customer, now))
  }

  function Without(order: seq<Id>, id: Id): seq<Id> {
    if order == [] then []
    else if order[0] == id then Without(order[1..], id)
    else [order[0]] + Without(order[1..], id)
  }

  function Forgotten(index: Index, id: Id): Index {
    Index(Without(index.order, id), index.records - {id})
  }

  // ---------------------------------------------------------------- the listing

  datatype Summary = Summary(id: Id, title: string, turns: nat, createdAt: Instant, updatedAt: Instant)

  predicate Scoped(r: Record, customer: Option<string>) {
    customer.None? || r.owner == customer
  }

  /** The store's filter, over the whole index. */
  function Matching(index: Index, order: seq<Id>, customer: Option<string>): seq<Id> {
    if order == [] then []
    else if order[0] in index.records && Scoped(index.records[order[0]], customer) then
      [order[0]] + Matching(index, order[1..], customer)
    else Matching(index, order[1..], customer)
  }

  function Window(ids: seq<Id>): seq<Id> {
    if |ids| <= SCAN_LIMIT then ids else ids[..SCAN_LIMIT]
  }

  function SummaryOf(id: Id, r: Record): Summary {
    Summary(id, Strip(r.title), r.turns, r.createdAt, r.updatedAt)
  }

  function Summaries(index: Index, ids: seq<Id>, customer: Option<string>): seq<Summary> {
    if ids == [] then []
    else
      var rest := Summaries(index, ids[1..], customer);
      if ids[0] in index.records && index.records[ids[0]].turns > 0 && Scoped(index.records[ids[0]], customer) then
        [SummaryOf(ids[0], index.records[ids[0]])] + rest
      else rest
  }

  /** `sort(key=updated_at, reverse=True)`: newest first, ties as they came. */
  function Insert(s: Summary, sorted: seq<Summary>): seq<Summary> {
    if sorted == [] || sorted[0].updatedAt <= s.updatedAt then [s] + sorted
    else [sorted[0]] + Insert(s, sorted[1..])
  }

  function NewestFirst(summaries: seq<Summary>): seq<Summary> {
    if summaries == [] then [] else Insert(summaries[0], NewestFirst(summaries[1..]))
  }

  function Listing(index: Index, customer: Option<string>): seq<Summary> {
    NewestFirst(Summaries(index, Window(Matching(index, index.order, customer)), customer))
  }

  function Slice<T>(s: seq<T>, from: nat, to: nat): seq<T> {
    if from >= |s| || to <= from then [] else if to <= |s| then s[from..to] else s[from..]
  }

  function Page(index: Index, customer: Option<string>, limit: nat, offset: nat): seq<Summary> {
    Slice(Listing(index, customer), offset, offset + limit)
  }

  // ---------------------------------------------------------------- the index as it runs

  class ThreadIndex {
    var order: seq<Id>
    var records: map<Id, Record>

    constructor ()
      ensures Now() == NO_THREADS
    {
      order := [];
      records := map[];
    }

    function Now(): Index
      reads this
    {
      Index(order, records)
    }

    method Save(id: Id, record: Record)
      modifies this
      ensures Now() == Put(old(Now()), id, record)
    {
      if id !in records {
        order := order + [id];
      }
      records := records[id := record];
    }

    method OpenThread(id: Id, customer: Option<string>, now: Instant)
      modifies this
      ensures Now() == Opened(old(Now()), id, customer, now)
    {
      Save(id, Record("", 0, now, now, customer));
    }

    method RecordTurn(id: Id, message: string, customer: Option<string>, now: Instant)
      modifies this
      ensures Now() == Turned(old(Now()), id, message, customer, now)
      ensures Now() == old(Now()) <==> Refused(old(OwnerIn(Now(), id)), customer)
      ensures Now() == old(Now()) || TurnedRightly(old(Now()), Now(), id, message, customer, now)
    {
      hide TurnedRightly;
      StrangersTurnChangesNothing(Now(), id, message, customer, now);
      if !Refused(OwnerIn(Now(), id), customer) {
        TurnIsRecorded(Now(), id, message, customer, now);
      }
      var title, turns, createdAt, owner := "", 0, now, None;
      if id in records {
        var r := records[id];
        title, turns, createdAt, owner := r.title, r.turns, r.createdAt, r.owner;
      }
      if owner.Some? && customer.Some? && owner != customer {
        return;
      }
      Save(id, Record(if title == "" then TitleFrom(message) else title, turns + 1, createdAt, now,
                          if owner.Some? then owner else customer));
    }

    method ListThreads(customer: Option<string>, limit: nat, offset: nat) returns (page: seq<Summary>)
      ensures page == Page(Now(), customer, limit, offset)
    {
      hide NewestFirst, Strip, Matching, SummaryOf, Scoped, Window;
      var items := Window(Matching(Now(), order, customer));
      var summaries: seq<Summary> := [];
      var i := 0;
      assert items[0..] == items;
      while i < |items|
        invariant 0 <= i <= |items|
        invariant Summaries(Now(), items, customer) == summaries + Summaries(Now(), items[i..], customer)
      {
        assert items[i..][0] == items[i] && items[i..][1..] == items[i + 1..];
        if items[i] in records && records[items[i]].turns > 0 && Scoped(records[items[i]], customer) {
          summaries := summaries + [SummaryOf(items[i], records[items[i]])];
        }
        i := i + 1;
      }
      assert items[i..] == [] && summaries + [] == summaries;
      page := Slice(NewestFirst(summaries), offset, offset + limit);
    }

    method OwnerOf(id: Id) returns (owner: Option<string>)
      ensures owner == OwnerIn(Now(), id)
    {
      if id !in records {
        return None;
      }
      return records[id].owner;
    }

    /** Another customer's thread and one that never existed look the same. */
    method VisibleTo(id: Id, customer: Option<string>) returns (visible: bool)
      ensures visible <==> customer.Some? ==> OwnerIn(Now(), id) == customer
    {
      if customer.None? {
        return true;
      }
      return id in records && records[id].owner == customer;
    }

    method Forget(id: Id)
      modifies this
      ensures Now() == Forgotten(old(Now()), id)
    {
      order := Without(order, id);
      records := records - {id};
    }
  }

  // ---------------------------------------------------------------- runs

  datatype Step =
    | Open(id: Id, customer: Option<string>, now: Instant)
    | Turn(id: Id, message: string, customer: Option<string>, now: Instant)
    | Forget(id: Id)

  function Next(index: Index, s: Step): Index {
    match s
    case Open(id, customer, now) => Opened(index, id, customer, now)
    case Turn(id, message, customer, now) => Turned(index, id, message, customer, now)
    case Forget(id) => Forgotten(index, id)
  }

  function Run(steps: seq<Step>): Index {
    if steps == [] then NO_THREADS else Next(Run(steps[..|steps| - 1]), steps[|steps| - 1])
  }

  /** The step starts the thread over, or ends it. */
  predicate Resets(s: Step, id: Id) {
    !s.Turn? && s.id == id
  }

  /** One step takes a thread from its owner only by forgetting it or by opening it again
      for someone else. */
  lemma OwnerLostOnlyByReset(index: Index, s: Step, id: Id)
    requires OwnerIn(index, id).Some?
    ensures OwnerIn(Next(index, s), id) != OwnerIn(index, id)
       <==> Resets(s, id) && !(s.Open? && s.customer == OwnerIn(index, id))
  {
  }

  /** Over any run: an owner once set stays until the thread is opened again or
      forgotten. With fresh ids nothing is opened twice. */
  lemma {:induction false} OwnerIsForever(steps: seq<Step>, more: seq<Step>, id: Id)
    requires OwnerIn(Run(steps), id).Some?
    requires forall s | s in more :: !Resets(s, id)
    ensures OwnerIn(Run(steps + more), id) == OwnerIn(Run(steps), id)
    decreases |more|
  {
    if more == [] {
      assert steps + more == steps;
    } else {
      var last, all := more[|more| - 1], steps + more;
      assert all[..|all| - 1] == steps + more[..|more| - 1];
      assert last in more && forall s | s in more[..|more| - 1] :: s in more;
      OwnerIsForever(steps, more[..|more| - 1], id);
      OwnerLostOnlyByReset(Run(all[..|all| - 1]), last, id);
    }
  }

  lemma TitleStays(index: Index, s: Step, id: Id)
    requires id in index.records && index.records[id].title != "" && !Resets(s, id)
    ensures id in Next(index, s).records && Next(index, s).records[id].title == index.records[id].title
  {
    hide TitleFrom;
  }

  /** A title once given is never rewritten while the thread lives. */
  lemma {:induction false} TitleIsForever(steps: seq<Step>, more: seq<Step>, id: Id)
    requires id in Run(steps).records && Run(steps).records[id].title != ""
    requires forall s | s in more :: !Resets(s, id)
    ensures id in Run(steps + more).records && Run(steps + more).records[id].title == Run(steps).records[id].title
    decreases |more|
  {
    hide Next;
    if more == [] {
      assert steps + more == steps;
    } else {
      var last, all := more[|more| - 1], steps + more;
      assert all[..|all| - 1] == steps + more[..|more| - 1];
      assert last in more && forall s | s in more[..|more| - 1] :: s in more;
      TitleIsForever(steps, more[..|more| - 1], id);
      TitleStays(Run(all[..|all| - 1]), last, id);
    }
  }

  /** The turns taken on a thread since it was last opened or forgotten, by anyone it did
      not then belong to someone else. */
  function TurnsTaken(steps: seq<Step>, id: Id): nat {
    if steps == [] then 0
    else
      var before, last := steps[..|steps| - 1], steps[|steps| - 1];
      if last.id != id then TurnsTaken(before, id)
      else if !last.Turn? then 0
      else if Refused(OwnerIn(Run(before), id), last.customer) then TurnsTaken(before, id)
      else TurnsTaken(before, id) + 1
  }

  lemma {:induction false} TurnsAreTurnsTaken(steps: seq<Step>, id: Id)
    ensures id in Run(steps).records ==> Run(steps).records[id].turns == TurnsTaken(steps, id)
    ensures id !in Run(steps).records ==> TurnsTaken(steps, id) == 0
  {
    if steps != [] {
      TurnsAreTurnsTaken(steps[..|steps| - 1], id);
    }
  }

  /** A named customer on a thread of another's; a caller with no name is let through. */
  predicate Refused(owner: Option<string>, customer: Option<string>) {
    match (owner, customer)
    case (Some(mine), Some(yours)) => mine != yours
    case _ => false
  }

  /** What an accepted turn leaves: one turn more, now as the last time, a title if there was
      none, an owner if there was none, and every other record as it was. */
  ghost predicate TurnedRightly(index: Index, index': Index, id: Id, message: string, customer: Option<string>,
                                now: Instant) {
    && id in index'.records && (forall other | other != id :: other in index'.records <==> other in index.records)
    && (forall other | other != id && other in index.records :: index'.records[other] == index.records[other])
    && var r' := index'.records[id];
    && r'.updatedAt == now
    && (id !in index.records ==>
          && index'.order == index.order + [id]
          && r'.turns == 1 && r'.createdAt == now && r'.owner == customer && TitledRightly(message, r'.title))
    && (id in index.records ==>
          var r := index.records[id];
          && index'.order == index.order
          && r'.turns == r.turns + 1 && r'.createdAt == r.createdAt
          && (r.title != "" ==> r'.title == r.title) && (r.title == "" ==> TitledRightly(message, r'.title))
          && (r.owner.Some? ==> r'.owner == r.owner) && (r.owner.None? ==> r'.owner == customer))
  }

  lemma TurnIsRecorded(index: Index, id: Id, message: string, customer: Option<string>, now: Instant)
    requires !Refused(OwnerIn(index, id), customer)
    ensures TurnedRightly(index, Turned(index, id, message, customer, now), id, message, customer, now)
  {
    TitleIsRight(message);
    hide TitledRightly, TitleFrom;
  }

  /** Opening starts a thread over, untitled, unspoken and the opener's; forgetting ends it. */
  lemma ResetsAreRecorded(index: Index, s: Step)
    requires !s.Turn?
    ensures var index' := Next(index, s);
      && (forall other | other != s.id :: other in index'.records <==> other in index.records)
      && (forall other | other != s.id && other in index.records :: index'.records[other] == index.records[other])
      && (s.Forget? ==> s.id !in index'.records)
      && (s.Open? ==> s.id in index'.records && index'.records[s.id] == Record("", 0, s.now, s.now, s.customer))
  {
  }

  // ---------------------------------------------------------------- when a thread began and was last spoken on

  /** The step speaks on the thread and is not refused, or opens it. */
  predicate Accepts(steps: seq<Step>, m: nat, id: Id) {
    && m < |steps| && steps[m].id == id && !steps[m].Forget?
    && (steps[m].Turn? ==> !Refused(OwnerIn(Run(steps[..m]), id), steps[m].customer))
  }

  ghost predicate LastAccepted(steps: seq<Step>, m: nat, id: Id) {
    m < |steps| && Accepts(steps, m, id) && forall j | m < j < |steps| :: !Accepts(steps, j, id)
  }

  /** The step opened the thread, or spoke on one that was not there; nothing has reset it since. */
  ghost predicate BornAt(steps: seq<Step>, k: nat, id: Id) {
    && k < |steps| && steps[k].id == id
    && (steps[k].Open? || (steps[k].Turn? && id !in Run(steps[..k]).records))
    && forall j | k < j < |steps| :: !Resets(steps[j], id)
  }

  lemma AcceptedBefore(steps: seq<Step>, s: Step, m: nat, id: Id)
    requires m < |steps|
    ensures Accepts(steps + [s], m, id) <==> Accepts(steps, m, id)
  {
    assert (steps + [s])[..m] == steps[..m];
  }

  lemma LastAcceptedStays(steps: seq<Step>, s: Step, m: nat, id: Id)
    requires LastAccepted(steps, m, id) && !Accepts(steps + [s], |steps|, id)
    ensures LastAccepted(steps + [s], m, id)
  {
    hide Accepts;
    AcceptedBefore(steps, s, m, id);
    forall j | m < j < |steps + [s]|
      ensures !Accepts(steps + [s], j, id)
    {
      if j < |steps| {
        AcceptedBefore(steps, s, j, id);
      }
    }
  }

  lemma BornStays(steps: seq<Step>, s: Step, k: nat, id: Id)
    requires BornAt(steps, k, id) && !Resets(s, id)
    ensures BornAt(steps + [s], k, id)
  {
    assert (steps + [s])[..k] == steps[..k];
  }

  /** A listed time is true: a thread was last updated by the last step it accepted, and
      created by the step it began with. */
  lemma {:induction false} TimesAreTrue(steps: seq<Step>, id: Id)
    requires id in Run(steps).records
    ensures var r := Run(steps).records[id];
      && (exists m: nat :: LastAccepted(steps, m, id) && r.updatedAt == steps[m].now)
      && (exists k: nat :: BornAt(steps, k, id) && r.createdAt == steps[k].now)
  {
    var n := |steps| - 1;
    var before, s := steps[..n], steps[n];
    assert steps == before + [s];
    if Accepts(steps, n, id) {
      assert LastAccepted(steps, n, id);
    } else {
      TimesAreTrue(before, id);
      var m: nat :| LastAccepted(before, m, id) && Run(before).records[id].updatedAt == before[m].now;
      LastAcceptedStays(before, s, m, id);
    }
    if s.id == id && (s.Open? || id !in Run(before).records) {
      assert BornAt(steps, n, id);
    } else {
      TimesAreTrue(before, id);
      var k: nat :| BornAt(before, k, id) && Run(before).records[id].createdAt == before[k].now;
      BornStays(before, s, k, id);
    }
  }

  /** A turn by another customer leaves the whole index as it was, and every other turn
      does not. */
  lemma StrangersTurnChangesNothing(index: Index, id: Id, message: string, customer: Option<string>, now: Instant)
    ensures Turned(index, id, message, customer, now) == index <==> Refused(OwnerIn(index, id), customer)
  {
    if !Refused(OwnerIn(index, id), customer) {
      var record := Spoken(index, id, message, customer, now);
      assert id in index.records ==> record.turns != index.records[id].turns;
      assert Turned(index, id, message, customer, now).records[id] == record;
    }
  }

  // ---------------------------------------------------------------- the listing, whole and paged

  ghost predicate Ordered(index: Index) {
    && (forall i, j | 0 <= i < j < |index.order| :: index.order[i] != index.order[j])
    && (forall id :: id in index.order <==> id in index.records)
  }

  lemma {:induction false} WithoutIs(order: seq<Id>, id: Id)
    requires forall i, j | 0 <= i < j < |order| :: order[i] != order[j]
    ensures forall i, j | 0 <= i < j < |Without(order, id)| :: Without(order, id)[i] != Without(order, id)[j]
    ensures forall x :: x in Without(order, id) <==> x in order && x != id
  {
    if order != [] {
      WithoutIs(order[1..], id);
      assert forall x :: x in order <==> x == order[0] || x in order[1..];
      var rest := Without(order[1..], id);
      assert order[0] !in rest;
      forall i, j | 0 <= i < j < |Without(order, id)|
        ensures Without(order, id)[i] != Without(order, id)[j]
      {
        assert i > 0 ==> order[0] != id ==> Without(order, id)[i] == rest[i - 1];
        assert order[0] != id ==> Without(order, id)[j] == rest[j - 1] && rest[j - 1] in rest;
      }
    }
  }

  lemma {:induction false} EveryRunIsOrdered(steps: seq<Step>)
    ensures Ordered(Run(steps))
  {
    if steps != [] {
      EveryRunIsOrdered(steps[..|steps| - 1]);
      if steps[|steps| - 1].Forget? {
        WithoutIs(Run(steps[..|steps| - 1]).order, steps[|steps| - 1].id);
      }
    }
  }

  lemma {:induction false} MatchingIs(index: Index, order: seq<Id>, customer: Option<string>)
    requires forall i, j | 0 <= i < j < |order| :: order[i] != order[j]
    ensures forall i, j | 0 <= i < j < |Matching(index, order, customer)| ::
      Matching(index, order, customer)[i] != Matching(index, order, customer)[j]
    ensures forall id ::
      (id in Matching(index, order, customer)) <==>
        id in order && id in index.records && Scoped(index.records[id], customer)
  {
    if order != [] {
      MatchingIs(index, order[1..], customer);
      assert forall x :: x in order <==> x == order[0] || x in order[1..];
    }
  }

  predicate Shown(index: Index, ids: seq<Id>, customer: Option<string>, s: Summary) {
    && s.id in ids && s.id in index.records
    && index.records[s.id].turns > 0 && Scoped(index.records[s.id], customer)
    && s == SummaryOf(s.id, index.records[s.id])
  }

  ghost predicate DistinctIds(summaries: seq<Summary>) {
    forall i, j | 0 <= i < j < |summaries| :: summaries[i].id != summaries[j].id
  }

  lemma {:induction false} SummariesAre(index: Index, ids: seq<Id>, customer: Option<string>)
    requires forall i, j | 0 <= i < j < |ids| :: ids[i] != ids[j]
    ensures DistinctIds(Summaries(index, ids, customer))
    ensures forall s :: s in Summaries(index, ids, customer) <==> Shown(index, ids, customer, s)
  {
    if ids != [] {
      SummariesAre(index, ids[1..], customer);
      assert forall x :: x in ids <==> x == ids[0] || x in ids[1..];
      var rest, all := Summaries(index, ids[1..], customer), Summaries(index, ids, customer);
      assert forall s | s in rest :: Shown(index, ids[1..], customer, s) && s.id != ids[0];
      if all != rest {
        assert all == [SummaryOf(ids[0], index.records[ids[0]])] + rest;
        forall i, j | 0 <= i < j < |all|
          ensures all[i].id != all[j].id
        {
          assert all[j] == rest[j - 1] && rest[j - 1] in rest;
        }
      }
    }
  }

  ghost predicate IsNewestFirst(summaries: seq<Summary>) {
    forall i, j | 0 <= i < j < |summaries| :: summaries[i].updatedAt >= summaries[j].updatedAt
  }

  function UpdatedAt(summaries: seq<Summary>, t: Instant): seq<Summary> {
    if summaries == [] then []
    else if summaries[0].updatedAt == t then [summaries[0]] + UpdatedAt(summaries[1..], t)
    else UpdatedAt(summaries[1..], t)
  }

  lemma {:induction false} InsertKeeps(s: Summary, sorted: seq<Summary>)
    ensures multiset(Insert(s, sorted)) == multiset([s] + sorted)
  {
    if sorted != [] && sorted[0].updatedAt > s.updatedAt {
      InsertKeeps(s, sorted[1..]);
      assert sorted == [sorted[0]] + sorted[1..];
    }
  }

  lemma {:induction false} InsertSorts(s: Summary, sorted: seq<Summary>)
    requires IsNewestFirst(sorted)
    ensures IsNewestFirst(Insert(s, sorted))
  {
    if sorted != [] && sorted[0].updatedAt > s.updatedAt {
      var rest := sorted[1..];
      InsertSorts(s, rest);
      InsertKeeps(s, rest);
      forall x | x in Insert(s, rest)
        ensures x.updatedAt <= sorted[0].updatedAt
      {
        assert x in multiset(Insert(s, rest)) && x in multiset([s] + rest);
      }
    }
  }

  lemma {:induction false} InsertIsStable(s: Summary, sorted: seq<Summary>, t: Instant)
    ensures UpdatedAt(Insert(s, sorted), t) == UpdatedAt([s] + sorted, t)
  {
    assert ([s] + sorted)[1..] == sorted;
    if sorted != [] && sorted[0].updatedAt > s.updatedAt {
      var rest := sorted[1..];
      InsertIsStable(s, rest, t);
      assert ([sorted[0]] + Insert(s, rest))[1..] == Insert(s, rest);
      assert ([s] + rest)[1..] == rest;
    }
  }

  /** The sort is the stable one: newest first, the same rows, ties in the store's order. */
  lemma {:induction false} NewestFirstSorts(summaries: seq<Summary>)
    ensures IsNewestFirst(NewestFirst(summaries))
    ensures multiset(NewestFirst(summaries)) == multiset(summaries)
    ensures forall t :: UpdatedAt(NewestFirst(summaries), t) == UpdatedAt(summaries, t)
  {
    if summaries != [] {
      var first, rest := summaries[0], summaries[1..];
      NewestFirstSorts(rest);
      InsertSorts(first, NewestFirst(rest));
      InsertKeeps(first, NewestFirst(rest));
      assert summaries == [first] + rest;
      assert ([first] + NewestFirst(rest))[1..] == NewestFirst(rest);
      forall t
        ensures UpdatedAt(NewestFirst(summaries), t) == UpdatedAt(summaries, t)
      {
        InsertIsStable(first, NewestFirst(rest), t);
      }
    }
  }

  lemma SortKeepsDistinctIds(summaries: seq<Summary>)
    requires DistinctIds(summaries)
    ensures DistinctIds(NewestFirst(summaries))
    ensures forall s :: s in NewestFirst(summaries) <==> s in summaries
  {
    NewestFirstSorts(summaries);
    var sorted := NewestFirst(summaries);
    forall s
      ensures s in sorted <==> s in summaries
    {
      assert s in sorted <==> s in multiset(sorted);
    }
    forall i, j | 0 <= i < j < |sorted|
      ensures sorted[i].id != sorted[j].id
    {
      if sorted[i].id == sorted[j].id {
        OneOfEachId(summaries, sorted[i], sorted[j]);
        TwoPlaces(sorted, i, j);
        OnePlace(summaries, sorted[i]);
        assert false;
      }
    }
  }

  lemma OneOfEachId(summaries: seq<Summary>, s: Summary, t: Summary)
    requires DistinctIds(summaries) && s in summaries && t in summaries && s.id == t.id
    ensures s == t
  {
  }

  lemma TwoPlaces(summaries: seq<Summary>, i: nat, j: nat)
    requires i < j < |summaries| && summaries[i] == summaries[j]
    ensures multiset(summaries)[summaries[i]] >= 2
  {
    assert summaries == summaries[..j] + summaries[j..];
    assert summaries[..j][i] in multiset(summaries[..j]) && summaries[j..][0] in multiset(summaries[j..]);
  }

  lemma {:induction false} OnePlace(summaries: seq<Summary>, s: Summary)
    requires DistinctIds(summaries)
    ensures multiset(summaries)[s] <= 1
  {
    if summaries != [] {
      var rest := summaries[1..];
      OnePlace(rest, s);
      assert summaries == [summaries[0]] + rest;
      assert forall t | t in rest :: t.id != summaries[0].id;
    }
  }

  /** Threads the customer has spoken to. */
  predicate SpokenTo(index: Index, customer: Option<string>, id: Id) {
    id in index.records && index.records[id].turns > 0 && Seen(index.records[id], customer)
  }

  /** Everyone's without a customer, else the customer's own and nobody else's. */
  predicate Seen(r: Record, customer: Option<string>) {
    match customer
    case None => true
    case Some(name) => r.owner == Some(name)
  }

  /** The customer's own records among the first `n` of the store. */
  function Own(index: Index, customer: Option<string>, n: nat): nat
    requires n <= |index.order|
  {
    if n == 0 then 0
    else
      var id := index.order[n - 1];
      Own(index, customer, n - 1) + if id in index.records && Seen(index.records[id], customer) then 1 else 0
  }

  /** The thread is among the first thousand of the customer's own in the store. */
  ghost predicate InWindow(index: Index, customer: Option<string>, id: Id) {
    exists p | 0 <= p < |index.order| ::
      index.order[p] == id && Mine(index, customer, p) && Own(index, customer, p) < 1_000
  }

  lemma {:induction false} MatchingInTwo(index: Index, a: seq<Id>, b: seq<Id>, customer: Option<string>)
    ensures Matching(index, a + b, customer) == Matching(index, a, customer) + Matching(index, b, customer)
  {
    if a == [] {
      assert a + b == b;
    } else {
      assert (a + b)[1..] == a[1..] + b;
      MatchingInTwo(index, a[1..], b, customer);
    }
  }

  predicate Mine(index: Index, customer: Option<string>, p: nat)
    requires p < |index.order|
  {
    index.order[p] in index.records && Seen(index.records[index.order[p]], customer)
  }

  lemma MatchingSnoc(index: Index, customer: Option<string>, n: nat)
    requires n < |index.order|
    ensures Matching(index, index.order[..n + 1], customer)
         == Matching(index, index.order[..n], customer) + if Mine(index, customer, n) then [index.order[n]] else []
  {
    assert index.order[..n + 1] == index.order[..n] + [index.order[n]];
    MatchingInTwo(index, index.order[..n], [index.order[n]], customer);
    assert [index.order[n]][1..] == [];
  }

  lemma {:induction false} OwnCounts(index: Index, customer: Option<string>, n: nat)
    requires n <= |index.order|
    ensures |Matching(index, index.order[..n], customer)| == Own(index, customer, n)
  {
    if n > 0 {
      OwnCounts(index, customer, n - 1);
      MatchingSnoc(index, customer, n - 1);
    }
  }

  /** What the store matches has each of the customer's records after as many as it has
      before it in the store. */
  lemma {:induction false} MatchedAt(index: Index, customer: Option<string>, n: nat, p: nat)
    requires p < n <= |index.order| && Mine(index, customer, p)
    ensures var matching := Matching(index, index.order[..n], customer);
      Own(index, customer, p) < |matching| && matching[Own(index, customer, p)] == index.order[p]
  {
    MatchingSnoc(index, customer, n - 1);
    OwnCounts(index, customer, n - 1);
    if p < n - 1 {
      MatchedAt(index, customer, n - 1, p);
    }
  }

  lemma {:induction false} PlaceOf(index: Index, customer: Option<string>, n: nat, i: nat) returns (p: nat)
    requires n <= |index.order| && i < |Matching(index, index.order[..n], customer)|
    ensures p < n && Mine(index, customer, p) && Own(index, customer, p) == i
    ensures index.order[p] == Matching(index, index.order[..n], customer)[i]
  {
    MatchingSnoc(index, customer, n - 1);
    OwnCounts(index, customer, n - 1);
    if i < |Matching(index, index.order[..n - 1], customer)| {
      p := PlaceOf(index, customer, n - 1, i);
    } else {
      p := n - 1;
    }
  }

  lemma WindowIs(index: Index, customer: Option<string>, id: Id)
    ensures id in Window(Matching(index, index.order, customer)) <==> InWindow(index, customer, id)
  {
    var n, matching := |index.order|, Matching(index, index.order, customer);
    var window := Window(matching);
    assert index.order[..n] == index.order;
    if id in window {
      var i :| 0 <= i < |window| && window[i] == id;
      var p := PlaceOf(index, customer, n, i);
      assert index.order[p] == id;
    }
    if InWindow(index, customer, id) {
      var p :| 0 <= p < n && index.order[p] == id && Mine(index, customer, p) && Own(index, customer, p) < 1_000;
      MatchedAt(index, customer, n, p);
      assert window[Own(index, customer, p)] == id;
    }
  }

  lemma {:induction false} OwnGrows(index: Index, customer: Option<string>, p: nat, n: nat)
    requires p < n <= |index.order| && Mine(index, customer, p)
    ensures Own(index, customer, p) < Own(index, customer, n)
  {
    if p < n - 1 {
      OwnGrows(index, customer, p, n - 1);
    }
  }

  lemma FewAreInWindow(index: Index, customer: Option<string>, id: Id)
    requires Ordered(index) && Own(index, customer, |index.order|) <= 1_000
    requires SpokenTo(index, customer, id)
    ensures InWindow(index, customer, id)
  {
    var p :| 0 <= p < |index.order| && index.order[p] == id;
    OwnGrows(index, customer, p, |index.order|);
  }

  /** The record's own times and turns, its title without outer space. */
  ghost predicate ShowsRecord(s: Summary, r: Record) {
    && s.turns == r.turns && s.createdAt == r.createdAt && s.updatedAt == r.updatedAt && Trimmed(s.title)
    && exists before, after :: r.title == before + s.title + after && AllSpace(before) && AllSpace(after)
  }

  /** In every run the listing is newest first without repeats, and shows exactly the
      customer's spoken-to threads that fall in the scanned window. */
  lemma ListingIs(steps: seq<Step>, customer: Option<string>, id: Id)
    ensures var index := Run(steps);
      var listing := Listing(index, customer);
      && IsNewestFirst(listing) && DistinctIds(listing)
      && (forall s | s in listing :: s.id in index.records && ShowsRecord(s, index.records[s.id]))
      && ((exists s | s in listing :: s.id == id) <==> SpokenTo(index, customer, id) && InWindow(index, customer, id))
  {
    EveryRunIsOrdered(steps);
    var index := Run(steps);
    MatchingIs(index, index.order, customer);
    var ids := Window(Matching(index, index.order, customer));
    var summaries := Summaries(index, ids, customer);
    SummariesAre(index, ids, customer);
    NewestFirstSorts(summaries);
    SortKeepsDistinctIds(summaries);
    forall s | s in summaries
      ensures ShowsRecord(s, index.records[s.id])
    {
      StripIs(index.records[s.id].title);
    }
    WindowIs(index, customer, id);
    hide ShowsRecord, InWindow;
    if SpokenTo(index, customer, id) && id in ids {
      assert Shown(index, ids, customer, SummaryOf(id, index.records[id]));
      assert SummaryOf(id, index.records[id]) in Listing(index, customer);
    }
  }

  /** The listing is all of the customer's spoken-to threads exactly when none of them
      lies beyond the window; up to SCAN_LIMIT records of theirs, none can. */
  lemma ListingIsComplete(steps: seq<Step>, customer: Option<string>)
    ensures var index := Run(steps);
      (forall id | SpokenTo(index, customer, id) :: exists s | s in Listing(index, customer) :: s.id == id)
      <==> (forall id | SpokenTo(index, customer, id) :: InWindow(index, customer, id))
    ensures var index := Run(steps);
      Own(index, customer, |index.order|) <= 1_000 ==>
        forall id | SpokenTo(index, customer, id) :: InWindow(index, customer, id)
  {
    hide InWindow, Own, Listing, Ordered;
    var index := Run(steps);
    forall id
      ensures (exists s | s in Listing(index, customer) :: s.id == id)
          <==> SpokenTo(index, customer, id) && InWindow(index, customer, id)
    {
      ListingIs(steps, customer, id);
    }
    EveryRunIsOrdered(steps);
    if Own(index, customer, |index.order|) <= 1_000 {
      forall id | SpokenTo(index, customer, id)
        ensures InWindow(index, customer, id)
      {
        FewAreInWindow(index, customer, id);
      }
    }
  }

  /** A page is the listing from `offset` on, at most `limit` rows of it. */
  lemma PageIs(index: Index, customer: Option<string>, limit: nat, offset: nat)
    ensures var page, listing := Page(index, customer, limit, offset), Listing(index, customer);
      && |page| == (if offset >= |listing| then 0 else if offset + limit <= |listing| then limit
                    else |listing| - offset)
      && forall i | 0 <= i < |page| :: page[i] == listing[offset + i]
  {
    hide Listing;
  }

  function Pages(index: Index, customer: Option<string>, limit: nat, count: nat): seq<Summary> {
    if count == 0 then []
    else Pages(index, customer, limit, count - 1) + Page(index, customer, limit, (count - 1) * limit)
  }

  lemma SliceGrows<T>(s: seq<T>, n: nat, k: nat)
    ensures Slice(s, 0, n) + Slice(s, n, n + k) == Slice(s, 0, n + k)
  {
  }

  /** Consecutive pages are the listing cut up: none of it is repeated and none skipped. */
  lemma {:induction false} PagesAreTheListing(index: Index, customer: Option<string>, limit: nat, count: nat)
    ensures Pages(index, customer, limit, count) == Slice(Listing(index, customer), 0, count * limit)
    ensures count * limit >= |Listing(index, customer)|
        ==> Pages(index, customer, limit, count) == Listing(index, customer)
  {
    hide Listing;
    if count > 0 {
      PagesAreTheListing(index, customer, limit, count - 1);
      var n := (count - 1) * limit;
      assert count * limit == n + limit;
      SliceGrows(Listing(index, customer), n, limit);
    }
  }

  // ---------------------------------------------------------------- nobody else shows

  /** The index with every record of anyone else taken out. */
  function OnlyTheirs(index: Index, customer: string): Index {
    Index(Matching(index, index.order, Some(customer)),
          map id | id in index.records && index.records[id].owner == Some(customer) :: index.records[id])
  }

  lemma {:induction false} MatchingAlone(index: Index, order: seq<Id>, customer: string)
    ensures Matching(OnlyTheirs(index, customer), Matching(index, order, Some(customer)), Some(customer))
         == Matching(index, order, Some(customer))
  {
    if order != [] {
      var rest := Matching(index, order[1..], Some(customer));
      MatchingAlone(index, order[1..], customer);
      assert order[0] in index.records && Scoped(index.records[order[0]], Some(customer))
          ==> ([order[0]] + rest)[1..] == rest;
    }
  }

  lemma {:induction false} SummariesAlone(index: Index, ids: seq<Id>, customer: string)
    ensures Summaries(OnlyTheirs(index, customer), ids, Some(customer)) == Summaries(index, ids, Some(customer))
  {
    if ids != [] {
      SummariesAlone(index, ids[1..], customer);
    }
  }

  /** A customer's pages are what they would be with nobody else in the index: another
      customer's threads are not listed, not counted, and take no room in the window. */
  lemma OthersDoNotShow(index: Index, customer: string, limit: nat, offset: nat)
    ensures Page(index, Some(customer), limit, offset)
        == Page(OnlyTheirs(index, customer), Some(customer), limit, offset)
  {
    var ids := Matching(index, index.order, Some(customer));
    MatchingAlone(index, index.order, customer);
    SummariesAlone(index, Window(ids), customer);
  }
}
