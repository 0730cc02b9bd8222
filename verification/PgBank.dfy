/** The bank over a shared book (src/control_plane/pgbank.py): balances and the people
    paid before are the process's own, the book is every process's. Left alone, a payment
    does what the in-memory bank's does; what others do between its steps is the subject
    of the interleaved system. */
module PgBank {
  import opened Actions
  import opened Machine
  import opened Bank

  /** The table of payments: insert if the key is free, never updated. */
  class Book {
    var rows: map<Id, Receipt>

    constructor ()
      ensures rows == map[]
    {
      rows := map[];
    }

    method InsertIfAbsent(key: Id, receipt: Receipt)
      modifies this
      ensures rows == if key in old(rows) then old(rows) else old(rows)[key := receipt]
    {
      if key !in rows {
        rows := rows[key := receipt];
      }
    }
  }

  class PgBank {
    const contacts: seq<Contact>
    const openingAccounts: map<string, int>
    const openingPaidBefore: set<string>
    const book: Book
    var accounts: map<string, int>
    var paidBefore: set<string>

    constructor (contacts: seq<Contact>, accounts: map<string, int>, paidBefore: set<string>, book: Book)
      ensures this.contacts == contacts && this.book == book
      ensures this.openingAccounts == this.accounts == accounts
      ensures this.openingPaidBefore == this.paidBefore == paidBefore
    {
      this.contacts := contacts;
      this.openingAccounts := accounts;
      this.openingPaidBefore := paidBefore;
      this.book := book;
      this.accounts := accounts;
      this.paidBefore := paidBefore;
    }

    function Memory(): BankMemory
      reads this
    {
      BankMemory(accounts, paidBefore)
    }

    function Now(): Position
      reads this, book
    {
      Position(Memory(), book.rows)
    }

    method Balance(account: string) returns (balance: Option<int>)
      ensures balance == (if account in accounts then Some(accounts[account]) else None)
    {
      if account !in accounts {
        return None;
      }
      return Some(accounts[account]);
    }

    /** A conversation's bank: the opening balance, and the same book. */
    method Fresh() returns (bank: PgBank)
      ensures fresh(bank) && bank.book == book && bank.contacts == contacts
      ensures bank.openingAccounts == openingAccounts && bank.openingPaidBefore == openingPaidBefore
      ensures bank.Now() == Position(BankMemory(openingAccounts, openingPaidBefore), book.rows)
    {
      bank := new PgBank(contacts, openingAccounts, openingPaidBefore, book);
    }

    method Payment(key: Id) returns (receipt: Option<Receipt>)
      ensures receipt == Lookup(book.rows, key)
    {
      if key in book.rows {
        return Some(book.rows[key]);
      }
      return None;
    }

    method CreatePix(key: Id, action: CreatePix, payment: Id) returns (answer: Answer)
      modifies this, book
      ensures Now() == After(contacts, old(Now()), PixCall(key, action, payment))
      ensures answer == EffectOn(contacts, old(Now()), PixCall(key, action, payment)).answer
      ensures AnsweredRightly(contacts, old(Now()), Now(), PixCall(key, action, payment), answer)
    {
      EveryRequestIsAnsweredRightly(contacts, Now(), PixCall(key, action, payment));
      hide AnsweredRightly;
      var existing := Payment(key);
      if existing.Some? {
        return Paid(existing.value);
      }
      if !HasContact(contacts, action.recipient) {
        return Refused(UnknownRecipient);
      }
      if action.source !in accounts {
        return Refused(UnknownAccount);
      }
      if accounts[action.source] < action.amount {
        return Refused(InsufficientFunds);
      }
      accounts := accounts[action.source := accounts[action.source] - action.amount];
      paidBefore := paidBefore + {action.recipient};
      var receipt := Receipt(payment, action.amount, action.recipient);
      book.InsertIfAbsent(key, receipt);
      var reread := Payment(key);
      var stored := if reread.Some? then reread.value else receipt;
      if action.amount % 100 == TIMEOUT_CENTS {
        return NoAnswer;
      }
      return Paid(stored);
    }
  }
}
