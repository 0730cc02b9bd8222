/** The bank: an idempotency-keyed book, accounts, and the people already paid
    (src/control_plane/bank.py). */
module Bank {
  import opened Actions
  import opened Machine
  import T = Text

  /** `folded` is the case-folded name recipients are searched in. */
  datatype Contact = Contact(id: Id, name: string, folded: string)

  /** The part of a bank that lives in process memory. */
  datatype BankMemory = BankMemory(accounts: map<string, int>, paidBefore: set<string>)

  const TIMEOUT_CENTS: int := 13

  function FindContacts(contacts: seq<Contact>, needle: string): seq<Contact> {
    if contacts == [] then []
    else (if T.Contains(contacts[0].folded, needle) then [contacts[0]] else []) + FindContacts(contacts[1..], needle)
  }

  /** The matches are, in order, exactly the contacts whose folded name holds the needle
      somewhere. */
  ghost predicate MatchesAre(contacts: seq<Contact>, needle: string, matches: seq<Contact>) {
    exists places: seq<nat> :: PlacesOf(contacts, needle, matches, places)
  }

  ghost predicate PlacesOf(contacts: seq<Contact>, needle: string, matches: seq<Contact>, places: seq<nat>) {
    && |places| == |matches|
    && (forall i, j | 0 <= i < j < |places| :: places[i] < places[j])
    && (forall i | 0 <= i < |places| :: places[i] < |contacts| && contacts[places[i]] == matches[i])
    && (forall k: nat | k < |contacts| :: k in places <==> IsIn(needle, contacts[k].folded))
  }

  ghost predicate IsIn(needle: string, text: string) {
    exists before, after: string :: text == before + needle + after
  }

  lemma IsInMeans(needle: string, text: string)
    ensures T.Contains(text, needle) <==> IsIn(needle, text)
  {
    if T.Contains(text, needle) {
      var i :| 0 <= i <= |text| && T.MatchesAt(text, needle, i);
      assert text == text[..i] + needle + text[i + |needle|..];
    }
    if IsIn(needle, text) {
      var before, after: string :| text == before + needle + after;
      assert T.MatchesAt(text, needle, |before|);
    }
  }

  lemma {:induction false} FindInTwo(a: seq<Contact>, b: seq<Contact>, needle: string)
    ensures FindContacts(a + b, needle) == FindContacts(a, needle) + FindContacts(b, needle)
  {
    hide T.Contains;
    if a == [] {
      assert a + b == b;
    } else {
      var head := if T.Contains(a[0].folded, needle) then [a[0]] else [];
      assert (a + b)[1..] == a[1..] + b;
      FindInTwo(a[1..], b, needle);
      assert head + (FindContacts(a[1..], needle) + FindContacts(b, needle))
          == head + FindContacts(a[1..], needle) + FindContacts(b, needle);
    }
  }

  lemma PlacesAfter(contacts: seq<Contact>, needle: string, matches: seq<Contact>, places: seq<nat>, last: Contact)
    requires PlacesOf(contacts, needle, matches, places)
    ensures var here := IsIn(needle, last.folded);
      PlacesOf(contacts + [last], needle, if here then matches + [last] else matches,
               if here then places + [|contacts|] else places)
  {
    hide IsIn;
    var all, n, here := contacts + [last], |contacts|, IsIn(needle, last.folded);
    var places' := if here then places + [n] else places;
    forall k: nat | k < |all|
      ensures k in places' <==> IsIn(needle, all[k].folded)
    {
      assert n !in places;
      assert k in places' <==> k in places || (here && k == n);
      if k < n {
        assert all[k] == contacts[k];
      }
    }
    forall i | 0 <= i < |places|
      ensures all[places[i]] == matches[i] && places[i] < n
    {
    }
  }

  lemma {:induction false} FindContactsMeans(contacts: seq<Contact>, needle: string)
    ensures MatchesAre(contacts, needle, FindContacts(contacts, needle))
  {
    if contacts == [] {
      assert PlacesOf(contacts, needle, [], []);
    } else {
      var n := |contacts| - 1;
      var before, last := contacts[..n], contacts[n];
      assert contacts == before + [last];
      FindContactsMeans(before, needle);
      FindInTwo(before, [last], needle);
      IsInMeans(needle, last.folded);
      assert [last][1..] == [];
      hide IsIn, T.Contains, PlacesOf;
      var matches, here := FindContacts(before, needle), IsIn(needle, last.folded);
      assert FindContacts(contacts, needle) == if here then matches + [last] else matches;
      var places: seq<nat> :| PlacesOf(before, needle, matches, places);
      PlacesAfter(before, needle, matches, places, last);
    }
  }

  predicate HasContact(contacts: seq<Contact>, id: Id) {
    exists c | c in contacts :: c.id == id
  }

  function Lookup<V>(m: map<Id, V>, id: Id): Option<V> {
    if id in m then Some(m[id]) else None
  }

  /** What one payment request does: the answer, the memory it leaves, and the
      receipt it files, if it files one. */
  datatype PixEffect = PixEffect(answer: Answer, memory: BankMemory, filed: Option<Receipt>)

  function Refusal(contacts: seq<Contact>, memory: BankMemory, action: CreatePix): Option<BankFault> {
    if !HasContact(contacts, action.recipient) then Some(UnknownRecipient)
    else if action.source !in memory.accounts then Some(UnknownAccount)
    else if memory.accounts[action.source] < action.amount then Some(InsufficientFunds)
    else None
  }

  function Debited(memory: BankMemory, action: CreatePix): BankMemory {
    if action.source in memory.accounts then
      BankMemory(memory.accounts[action.source := memory.accounts[action.source] - action.amount],
                 memory.paidBefore + {action.recipient})
    else memory
  }

  predicate TimesOut(amount: Money) {
    amount % 100 == TIMEOUT_CENTS
  }

  function PixOn(contacts: seq<Contact>, memory: BankMemory, booked: Option<Receipt>, action: CreatePix,
                 payment: Id): PixEffect {
    if booked.Some? then PixEffect(Paid(booked.value), memory, None)
    else
      var refusal := Refusal(contacts, memory, action);
      if refusal.Some? then PixEffect(Refused(refusal.value), memory, None)
      else
        var receipt := Receipt(payment, action.amount, action.recipient);
        PixEffect(if TimesOut(action.amount) then NoAnswer else Paid(receipt), Debited(memory, action), Some(receipt))
  }

  class MockBank {
    const contacts: seq<Contact>
    const openingAccounts: map<string, int>
    const openingPaidBefore: set<string>
    var accounts: map<string, int>
    var paidBefore: set<string>
    var payments: map<Id, Receipt>

    constructor (contacts: seq<Contact>, accounts: map<string, int>, paidBefore: set<string>,
                 payments: map<Id, Receipt>)
      ensures this.contacts == contacts
      ensures this.openingAccounts == this.accounts == accounts
      ensures this.openingPaidBefore == this.paidBefore == paidBefore
      ensures this.payments == payments
    {
      this.contacts := contacts;
      this.openingAccounts := accounts;
      this.openingPaidBefore := paidBefore;
      this.accounts := accounts;
      this.paidBefore := paidBefore;
      this.payments := payments;
    }

    function Memory(): BankMemory
      reads this
    {
      BankMemory(accounts, paidBefore)
    }

    function Now(): Position
      reads this
    {
      Position(Memory(), payments)
    }

    function Opening(): Position {
      Position(BankMemory(openingAccounts, openingPaidBefore), map[])
    }

    /** Whatever this bank has been through, a fresh one stands at the opening
        position with an empty book, and opens there again. */
    method Fresh() returns (bank: MockBank)
      ensures fresh(bank)
      ensures bank.contacts == contacts
      ensures bank.Now() == Opening() == bank.Opening()
    {
      bank := new MockBank(contacts, openingAccounts, openingPaidBefore, map[]);
    }

    method Balance(account: string) returns (balance: Option<int>)
      ensures balance == (if account in accounts then Some(accounts[account]) else None)
    {
      if account !in accounts {
        return None;
      }
      return Some(accounts[account]);
    }

    method Payment(key: Id) returns (receipt: Option<Receipt>)
      ensures receipt == Lookup(payments, key)
    {
      if key in payments {
        return Some(payments[key]);
      }
      return None;
    }

    method CreatePix(key: Id, action: CreatePix, payment: Id) returns (answer: Answer)
      modifies this
      ensures Now() == After(contacts, old(Now()), PixCall(key, action, payment))
      ensures answer == PixOn(contacts, old(Memory()), Lookup(old(payments), key), action, payment).answer
      ensures AnsweredRightly(contacts, old(Now()), Now(), PixCall(key, action, payment), answer)
    {
      EveryRequestIsAnsweredRightly(contacts, Now(), PixCall(key, action, payment));
      hide AnsweredRightly;
      if key in payments {
        return Paid(payments[key]);
      }
      if !HasContact(contacts, action.recipient) {
        return Refused(UnknownRecipient);
      }
      if action.source !in accounts {
        return Refused(UnknownAccount);
      }
      if accounts[action.source] < action.amount {
        return Refused(InsufficientFunds);
      }
      accounts := accounts[action.source := accounts[action.source] - action.amount];
      paidBefore := paidBefore + {action.recipient};
      var receipt := Receipt(payment, action.amount, action.recipient);
      payments := payments[key := receipt];
      if action.amount % 100 == TIMEOUT_CENTS {
        return NoAnswer;
      }
      return Paid(receipt);
    }
  }

  /** A bank's whole state, and one payment request put to it. */
  datatype Position = Position(memory: BankMemory, payments: map<Id, Receipt>)

  datatype PixCall = PixCall(key: Id, action: CreatePix, payment: Id)

  ghost predicate Known(contacts: seq<Contact>, recipient: string) {
    exists k | 0 <= k < |contacts| :: contacts[k].id == recipient
  }

  /** From the positions before and after: which request is booked, what that moves, and
      what each request is answered. Only a booking moves anything; a booking whose cents are
      13 is answered by silence, any other by its receipt, and so is a key booked before. */
  ghost predicate AnsweredRightly(contacts: seq<Contact>, p: Position, q: Position, c: PixCall, answer: Answer) {
    var before, action, accounts := c.key in p.payments, c.action, p.memory.accounts;
    var known, booked := Known(contacts, action.recipient), c.key !in p.payments && c.key in q.payments;
    && (booked <==> !before && known && action.source in accounts && action.amount <= accounts[action.source])
    && (!booked ==> q == p)
    && (booked ==>
          && q.payments == p.payments[c.key := Receipt(c.payment, action.amount, action.recipient)]
          && q.memory.paidBefore == p.memory.paidBefore + {action.recipient}
          && q.memory.accounts == accounts[action.source := accounts[action.source] - action.amount])
    && (answer.Paid? <==> before || (booked && action.amount % 100 != 13))
    && (answer.Paid? ==> c.key in q.payments && answer.receipt == q.payments[c.key])
    && (answer == NoAnswer <==> booked && action.amount % 100 == 13)
    && (answer == Refused(UnknownRecipient) <==> !before && !known)
    && (answer == Refused(UnknownAccount) <==> !before && known && action.source !in accounts)
    && (answer == Refused(InsufficientFunds) <==>
          !before && known && action.source in accounts && accounts[action.source] < action.amount)
  }

  lemma KnownIsListed(contacts: seq<Contact>, recipient: string)
    ensures Known(contacts, recipient) <==> HasContact(contacts, recipient)
  {
    if HasContact(contacts, recipient) {
      var c :| c in contacts && c.id == recipient;
      var k :| 0 <= k < |contacts| && contacts[k] == c;
      assert contacts[k].id == recipient;
    }
  }

  /** Every request, from every position, is answered rightly. */
  lemma EveryRequestIsAnsweredRightly(contacts: seq<Contact>, p: Position, c: PixCall)
    ensures AnsweredRightly(contacts, p, After(contacts, p, c), c, EffectOn(contacts, p, c).answer)
  {
    KnownIsListed(contacts, c.action.recipient);
    hide Known, HasContact;
  }

  function EffectOn(contacts: seq<Contact>, p: Position, c: PixCall): PixEffect {
    PixOn(contacts, p.memory, Lookup(p.payments, c.key), c.action, c.payment)
  }

  function After(contacts: seq<Contact>, p: Position, c: PixCall): Position {
    var effect := EffectOn(contacts, p, c);
    Position(effect.memory,
             if effect.filed.Some? then p.payments[c.key := effect.filed.value] else p.payments)
  }

  /** The position after a history of requests, and the requests that were booked. */
  function AfterAll(contacts: seq<Contact>, p: Position, calls: seq<PixCall>): Position {
    if calls == [] then p
    else After(contacts, AfterAll(contacts, p, calls[..|calls| - 1]), calls[|calls| - 1])
  }

  function Booked(contacts: seq<Contact>, p: Position, calls: seq<PixCall>): seq<PixCall> {
    if calls == [] then []
    else
      var before := calls[..|calls| - 1];
      var last := calls[|calls| - 1];
      Booked(contacts, p, before)
      + (if EffectOn(contacts, AfterAll(contacts, p, before), last).filed.Some? then [last] else [])
  }

  function Debits(calls: seq<PixCall>, account: string): int {
    if calls == [] then 0
    else
      var last := calls[|calls| - 1];
      Debits(calls[..|calls| - 1], account) + (if last.action.source == account then last.action.amount else 0)
  }

  ghost predicate Solvent(memory: BankMemory) {
    forall a | a in memory.accounts :: memory.accounts[a] >= 0
  }

  /** Booked requests carry distinct keys, none of them booked before. */
  ghost predicate DistinctKeys(calls: seq<PixCall>, before: map<Id, Receipt>) {
    && (forall c | c in calls :: c.key !in before)
    && (forall i, j | 0 <= i < j < |calls| :: calls[i].key != calls[j].key)
  }

  /** The book is the opening book plus exactly one receipt per booked request. */
  ghost predicate BookIs(book: map<Id, Receipt>, before: map<Id, Receipt>, calls: seq<PixCall>) {
    && (forall k | k in book :: (k in before && book[k] == before[k]) || exists c | c in calls :: c.key == k)
    && (forall k | k in before :: k in book)
    && (forall c | c in calls ::
          c.key in book && book[c.key] == Receipt(c.payment, c.action.amount, c.action.recipient))
  }

  /** Each account is its opening balance less what was booked against it. */
  ghost predicate AccountsAre(after: BankMemory, before: BankMemory, booked: seq<PixCall>) {
    && after.accounts.Keys == before.accounts.Keys
    && (forall a | a in before.accounts :: after.accounts[a] == before.accounts[a] - Debits(booked, a))
    && (Solvent(before) ==> Solvent(after))
  }

  /** Money is conserved over every history of requests, refused, repeated or timed
      out after paying: each account is its opening balance less what was booked
      against it, each key was booked once, and nobody goes below zero. */
  lemma {:induction false} Conservation(contacts: seq<Contact>, p: Position, calls: seq<PixCall>)
    ensures var q, booked := AfterAll(contacts, p, calls), Booked(contacts, p, calls);
      && AccountsAre(q.memory, p.memory, booked)
      && DistinctKeys(booked, p.payments)
      && BookIs(q.payments, p.payments, booked)
  {
    if calls != [] {
      var before, last := calls[..|calls| - 1], calls[|calls| - 1];
      Conservation(contacts, p, before);
      var mid, booked := AfterAll(contacts, p, before), Booked(contacts, p, before);
      var effect := EffectOn(contacts, mid, last);
      if effect.filed.Some? {
        assert Booked(contacts, p, calls) == booked + [last];
        BookedOnce(booked, last, p.payments, mid.payments);
        DebitedOnce(mid.memory, p.memory, booked, last);
      } else {
        assert Booked(contacts, p, calls) == booked;
      }
    }
  }

  lemma DebitedOnce(memory: BankMemory, before: BankMemory, booked: seq<PixCall>, last: PixCall)
    requires AccountsAre(memory, before, booked)
    requires last.action.source in memory.accounts && memory.accounts[last.action.source] >= last.action.amount
    ensures AccountsAre(Debited(memory, last.action), before, booked + [last])
  {
    assert (booked + [last])[..|booked|] == booked;
    var after := Debited(memory, last.action);
    assert after.accounts.Keys == before.accounts.Keys;
    forall a | a in before.accounts
      ensures after.accounts[a] == before.accounts[a] - Debits(booked + [last], a)
    {
    }
  }

  lemma BookedOnce(booked: seq<PixCall>, last: PixCall, before: map<Id, Receipt>, book: map<Id, Receipt>)
    requires DistinctKeys(booked, before) && BookIs(book, before, booked)
    requires last.key !in book
    ensures DistinctKeys(booked + [last], before)
    ensures BookIs(book[last.key := Receipt(last.payment, last.action.amount, last.action.recipient)],
                   before, booked + [last])
  {
    var all := booked + [last];
    forall i, j | 0 <= i < j < |all|
      ensures all[i].key != all[j].key
    {
      assert all[i] in booked;
    }
    var book' := book[last.key := Receipt(last.payment, last.action.amount, last.action.recipient)];
    forall k | k in book'
      ensures (k in before && book'[k] == before[k]) || exists c | c in all :: c.key == k
    {
      if k == last.key {
        assert last in all;
      } else if !(k in before && book[k] == before[k]) {
        var c :| c in booked && c.key == k;
        assert c in all;
      }
    }
  }

  /** Once a key is in the book every later request under it, whatever it asks for,
      is answered with that receipt and moves nothing, over any history. */
  lemma {:induction false} KeyIsSpentOnce(contacts: seq<Contact>, p: Position, calls: seq<PixCall>, again: PixCall)
    requires again.key in p.payments
    ensures var q := AfterAll(contacts, p, calls);
      && again.key in q.payments && q.payments[again.key] == p.payments[again.key]
      && EffectOn(contacts, q, again) == PixEffect(Paid(p.payments[again.key]), q.memory, None)
      && After(contacts, q, again) == q
  {
    if calls != [] {
      KeyIsSpentOnce(contacts, p, calls[..|calls| - 1], again);
    }
  }
}
