# A verified model of the Pix control plane

The repository is a banking assistant in which a language model may only *propose* a Pix
transfer. A deterministic control plane resolves the recipient, scores risk, asks policy,
issues a token for one exact action, takes the customer's consent, calls an idempotent bank
and keeps an append-only ledger. This project models that plane, and a few smaller parts
around it, in Dafny 4.11 and proves what they keep. `dafny verify dfyconfig.toml` checks it
all.

## The control plane, three ways

* **As a script of durable writes** (`Plane`). Every method is a sequence of ledger appends,
  row upserts and book entries, each committed on its own. A crash leaves a prefix.
* **As it runs** (`Stores`, `Control`, `PgBank`, `Scopes`, `Service`, `Bank`). Classes whose
  methods assign the fields of a live intent that the in-memory store aliases, append, save,
  and call the bank. Each method is proved to leave exactly what its script says. So the
  aliasing store and the copying store give the same rows, events, tokens and replies, crash
  inside the bank call included. `Service` drives one plane a conversation over one store and
  one book, with processes that die in the bank call and start again.
* **As two step systems.** `Serial`: one process at a time, any number of conversations, a
  crash between any two writes, restarts, and stored actions rewritten behind the plane's back.
  `Service.Service.Run` shows that the live service is always where this system is.
  `Workers`: any number of workers interleaving on copies of rows nothing locks, with
  `PgBank.create_pix` cut into its steps.

`Audit` folds one intent's trail into what a later question needs, and states what each part
of the fold means as an ordered pattern of events. `Intents` holds the invariant of one
intent's row, trail and booking; `Scripts` shows that every write of every method keeps it;
`Serial.EveryRunIsGood` lifts that to every run. `Guarantees`, `Lifetimes`, `Recovery` and
`Isolation` read the theorems off. `Answers` says, in figures and from the states before and
after, what every operation of a run moves, records and answers; `Proposals` follows an intent
from what was proposed to what is paid. `Workers` and `Hours` say what stale copies cannot
break. `Races` shows what interleaving breaks, from every state it can break; `Locks` and
`Payers` prove what it would take to keep it: under a lock on each intent, every interleaving
leaves each intent as some serial run does.

The ids and clock readings an operation draws are its parameters (`Op`). Ids are drawn fresh,
and so are confirmation tokens. The clock is unconstrained, except where a `slack` is named.

## What turned out not to hold

* An intent a crash leaves in CREATED, VALIDATED or AUTHORIZED stays there for good
  (`Lifetimes.StrandedIsNeverPaid`), and every proposal and every accepted confirmation can be
  crashed there (`Lifetimes.CrashLeavesCreated`, `Lifetimes.CrashLeavesValidated`,
  `Lifetimes.CrashLeavesAuthorized`). The sweep recovers SUBMITTED only, although
  `src/control_plane/plane.py:367` speaks of what was left mid-flight. An intent can move
  exactly when it is neither stranded nor settled (`Lifetimes.MovesExactly`). What is in doubt
  about money does get settled, by a sweep and one reconciliation each
  (`Recovery.RecoverySettlesEverything`).
* A stored action rewritten while its intent waits for a step-up is what the step-up issues
  the token for, and what is then paid (`Proposals.RewrittenBeforeStepUpIsPaid`): the digest
  guards an action only from the issue on. A payment is the one proposed exactly when the
  stored action still was when the token was issued (`Proposals.PaidAsProposedExactly`).
* A repeated confirmation is answered with the stored state, except of an intent a crash left
  SUBMITTED: that one is answered DENY, under the message that it was already executed
  (`Answers.ConfirmAnswers`; SUBMITTED is not among the states `src/control_plane/plane.py:555`
  reports).
* With several workers, stored state and book can disagree, from every state in which a
  confirmation would be accepted (`Races.RacingCancelHidesThePayment`). They agree in every
  interleaving where no worker starts on an intent another is still at
  (`Locks.LockedStateAgreesWithBook`), for there each intent is as a serial run leaves it
  (`Locks.LockedIsSerializable`).
* One in-memory balance can be debited twice for one row and go below zero
  (`Races.RacingConfirmsDebitTwice`). Each booked row is debited once where no worker starts on
  a payment another is still making (`Payers.MoneyIsTakenOnce`), and nothing goes below zero
  where no worker starts a payment from a bank another is paying from
  (`Payers.NobodyGoesBelowZero`).
* `brl` drops the sign of an amount between -0,99 and -0,01 (`Money.RoundTrip`,
  `Money.DisplayedAlike`). No payment is affected, payments being positive; a balance is, if
  it ever goes negative.
* A field that ends in a carriage return loses it in the browser's reader
  (`Sse.BrowserReadsWhatWasPrinted`); outer space and unnamed frames are lost in the Python
  reader (`Sse.LineReaderReadsWhatWasPrinted`). Of what the server prints only an event name
  can be read back wrong: JSON escapes control characters, so a printed payload has no raw
  carriage return and no outer space.
* The thread listing is complete only while no spoken-to thread lies beyond the first 1000
  records of the customer's own, never-used ones included (`Threads.ListingIsComplete`). An
  owner is kept as long as the thread is neither forgotten nor opened again for another
  customer (`Threads.OwnerIsForever`).
* Eval denominators depend on failures when a per-turn check is keyed by a turn the case does
  not have (`Evals.TotalsIgnoreFailures`).

## Model

| member | source | states |
|---|---|---|
| `Guarantees.StateAgreesWithBook` | src/control_plane/plane.py:490-518 | in every serial run, with a crash anywhere, a booked key means SUBMITTED, UNKNOWN or COMPLETED; COMPLETED means booked with that very receipt; every other state was never paid |
| `Guarantees.RepliesAgreeWithBook` | src/control_plane/plane.py:543-568 | no reply of COMPLETED or FAILED is ever given against the book |
| `Guarantees.PaymentsWereConsented` | src/control_plane/plane.py:298-332 | even with stored actions rewritten, a booked recipient and amount are those the intent's one token was issued for; policy's request, that token's issue, its confirmation by the owner at the recorded instant, its authorization (at strong assurance above R$ 1.000) and the execution request precede it, in that order |
| `Guarantees.MoneyMovesOnLiveConsentOnly` | src/control_plane/plane.py:412-417 | the book grows only in a confirmation from the token's own customer and session, within five minutes of its issue, of an action with an unchanged digest |
| `Guarantees.PaymentsRespectPolicy` | src/control_plane/policy.py:115-169 | every payment is at most R$ 5.000; above R$ 1.000, or approved at high risk, the intent carries strong assurance |
| `Guarantees.NothingLargeAtNight` | src/control_plane/policy.py:109-112 | although policy is not asked again, no payment above R$ 1.000 is accepted at a local time in [20:05 + slack, 06:00) |
| `Serial.EveryRunIsGood` | src/control_plane/plane.py:178-389 | the invariant of row, trail and booking holds of every intent in every run |
| `Serial.ScanAgreesWithUniqueIndex` | src/control_plane/store.py:107-111 | no two intents share a token, so the first match of the scan is the only one, as the unique index promises |
| `Audit.RequestedMeans` | src/control_plane/state.py:141-156 | the fold has a consent requested exactly when the trail holds verdict, issue, the owner's confirmation, an authorization that is enough for the amount, and execution request, in order |
| `Audit.IssuedMeans` | src/control_plane/plane.py:466-475 | the fold has a token issued exactly when a verdict asking for confirmation precedes its issue in the trail |
| `Lifetimes.EveryIntentEnds` | src/control_plane/state.py:57-77 | in every run a stored intent changes state at most eight times, steps up at most once, and is never PENDING or REVERSED |
| `Lifetimes.SettledIsForever` | src/control_plane/state.py:57-77 | COMPLETED, FAILED and CANCELLED never change, booked rows never change, nobody's intent changes owner |
| `Lifetimes.StrandedIsNeverPaid` | src/control_plane/plane.py:328-332 | what a crash leaves in CREATED, VALIDATED or AUTHORIZED is never moved and never paid |
| `Lifetimes.CrashLeavesAuthorized` | src/control_plane/plane.py:308-332 | from any state, a crash after the fourth write of an accepted confirmation stores AUTHORIZED |
| `Lifetimes.CrashLeavesCreated` | src/control_plane/plane.py:215-225 | a crash after the fourth write of a proposal that finds its recipient stores CREATED |
| `Lifetimes.CrashLeavesValidated` | src/control_plane/plane.py:222-242 | three writes later, preconditions met, it stores VALIDATED |
| `Lifetimes.MovesExactly` | src/control_plane/state.py:57-77 | in every reachable state some step moves an intent exactly when it is neither stranded nor settled |
| `Lifetimes.SweepRecovers` | src/control_plane/plane.py:366-389 | from any reachable state the sweep returns exactly the SUBMITTED ids in the store's order, makes them UNKNOWN, touches nothing else and not the bank, and a second one does nothing |
| `Lifetimes.ReconcileSettles` | src/control_plane/plane.py:348-364 | an UNKNOWN intent reconciles to COMPLETED, with the bank's receipt, exactly when the book has its key, else to FAILED; book, balances and other intents stay |
| `Recovery.RecoverySettlesEverything` | src/control_plane/plane.py:348-389 | after any run with crashes anywhere, a sweep and one reconciliation per UNKNOWN intent leave none SUBMITTED or UNKNOWN, COMPLETED with the bank's receipt exactly the booked keys, and book and every other row as they were |
| `Lifetimes.LedgerReplaysTheState` | src/control_plane/state.py:180-201 | in memory, folding an intent's transition rows from CREATED gives its state, a crash inside the bank call included |
| `Lifetimes.LedgerNeverLies` | src/control_plane/state.py:180-201 | with crashes anywhere every transition row is an edge of the table and the stored state is CREATED or the target of a row |
| `Answers.ConfirmAnswers` | src/control_plane/plane.py:269-332 | the answer is DENY exactly when the intent neither awaits confirmation nor is UNKNOWN or COMPLETED, or was asked in time about another action; else it is the state stored afterwards; COMPLETED is answered exactly when stored; and exactly which row, events, booking and balances each case leaves, the bank asked once for the stored action under the intent's key |
| `Answers.CancelAnswers` | src/control_plane/plane.py:334-346 | moved to CANCELLED, and answered so, exactly when it awaits confirmation; else DENY, the refusal recorded, nothing moved |
| `Answers.ReconcileAnswers` | src/control_plane/plane.py:348-364 | row, events and answer of an UNKNOWN intent, booked or not, and of any other |
| `Answers.StatusAnswers` | src/control_plane/plane.py:391-393 | the stored row, reported in its state when settled and as refused otherwise; nothing written |
| `Answers.QueryAnswers` | src/control_plane/plane.py:130-172 | the balance answered is the one held; it fails exactly when there is no such account; the read is recorded |
| `Answers.ExplainAnswers` | src/control_plane/plane.py:395-406 | the whole trail to the conversation whose request is the first in it, nothing to any other; of a stored intent, to its own conversation |
| `Answers.UnknownReferencesLookAlike` | src/control_plane/plane.py:570-609 | a reference to another's intent and to none are answered alike, and nothing is written; which conversation or customer each operation wants |
| `Answers.ProposeAnswers` | src/control_plane/plane.py:178-242 | a proposal goes on exactly when one contact's folded name holds the needle; the action is then of the amount proposed, to that contact, from `checking_001`; refused with exactly what the account lacks, else decided in figures: row, token, events and answer |
| `Answers.StepUpAnswers` | src/control_plane/plane.py:244-267 | only an intent waiting for it is stepped up, and policy is asked again, in figures, for the stored action at strong assurance |
| `Answers.SweepIsRecorded` | src/control_plane/plane.py:366-389 | exactly the intents swept get the two events of it in their trails |
| `Proposals.PaymentsWereAssessed` | src/control_plane/policy.py:80-99 | of every payment, the step that issued its token: by what the conversation's bank knew then, where two of new recipient, above R$ 500 and untrusted device held, or above R$ 1.000, the intent has strong assurance; at most R$ 5.000, and above R$ 1.000 not by night |
| `Proposals.PaidAsProposed` | src/control_plane/plane.py:186-225 | every payment's trail opens with what was understood and the one contact it was resolved to, before any hop; unless the stored action was rewritten before the token was issued, the payment is of that amount to that contact, from `checking_001` |
| `Proposals.PaidAsProposedExactly` | src/control_plane/plane.py:466-475 | in every run, the token of a payment is for what was proposed exactly when the stored action still was when it was issued |
| `Proposals.RewrittenBeforeStepUpIsPaid` | src/control_plane/plane.py:244-267 | from every state in which an intent waits for a step-up, a rewritten action is stepped up, confirmed and paid |
| `Isolation.OthersDoNotInterfere` | examples/banking/tools.py:105-150 | delete every other customer's operations: the run left is valid, ends with this customer's rows, trails, bookings and balances, and gives the same replies |
| `Workers.EveryInterleavingIsSound` | src/control_plane/pgstore.py:85-152 | what stale copies cannot break, kept by every tick of every interleaving |
| `Workers.BookRowsAreFinal` | src/control_plane/pgbank.py:108-117 | one row a key, never rewritten, however workers interleave and die |
| `Workers.EveryCallReturnsTheRow` | src/control_plane/pgbank.py:84-121 | every `create_pix` that returns gives the booked row, the same to everyone |
| `Workers.FallbackIsDead` | src/control_plane/pgbank.py:118 | when the insert is read back the row is there, so the fallback is never used |
| `Workers.PaidMeansConsented` | src/control_plane/plane.py:269-332 | in every interleaving a booked row pays at most R$ 5.000 and is preceded by verdict, issue, the owner's confirmation of that action, its authorization (at strong assurance above R$ 1.000) and an execution request |
| `Workers.PaidWasLetThrough` | src/control_plane/plane.py:275-313 | in every interleaving a booked row comes from a confirmation some worker began at a named tick: by the token's owner, at a clock reading within the lifetime of a token that was issued, with the issued digest; the row pays that very action, and the trail holds that very token, action and instant, given by that caller, in order |
| `Hours.NothingLargeIsPaidAtNight` | src/control_plane/policy.py:109-112 | in every interleaving on a clock that is never behind the stored issue times, a booked row above R$ 1.000 comes from a confirmation begun at a local time in [06:00, 20:05 + slack) |
| `Races.RacingCancelHidesThePayment` | src/control_plane/plane.py:334-346 | wherever a confirmation would be accepted, a racing cancellation can leave the paid intent stored CANCELLED |
| `Races.RacingConfirmsDebitTwice` | src/control_plane/pgbank.py:99-101 | wherever a confirmation would be accepted, two workers on one bank can debit it twice and book one row |
| `Races.RacesCanHappen` | src/control_plane/plane.py:466-475 | such states are reached, every lock kept: wherever policy would have a proposal confirmed, a run leads to one |
| `Locks.LockedIsSerializable` | src/control_plane/pgstore.py:85-152 | in every interleaving where no worker starts on an intent another is still at, however workers die, the intent's row, events and booking are exactly those some valid serial run of operations, whole or cut short, leaves, whatever balances it finds |
| `Locks.LockedIsGood` | src/control_plane/plane.py:178-389 | so the serial invariant of row, trail and booking holds of each intent there |
| `Locks.LockedStateAgreesWithBook` | src/control_plane/pgstore.py:85-152 | in every interleaving where no worker starts on an intent another is still at, the three clauses of `StateAgreesWithBook` hold of every id, however workers die |
| `Payers.BalanceIsOpeningLessDebits` | src/control_plane/pgbank.py:99-101 | in every interleaving a bank's balances are the opening ones less the debits since it opened |
| `Payers.MoneyIsTakenOnce` | src/control_plane/pgbank.py:84-121 | where each key has one payer at a time, those debits have distinct keys, each with its own receipt in the book or about to be filed |
| `Payers.NobodyGoesBelowZero` | src/control_plane/pgbank.py:95-101 | where each bank has one payment at a time, no balance goes below zero |
| `Races.AgreementIsTheLock` | src/control_plane/plane.py:334-346 | from every locked state in which a confirmation would be accepted: all that goes on locked agrees, and something unlocked does not |
| `Races.ConservationIsTheKeyLock` | src/control_plane/pgbank.py:84-121 | the same of taking money once and one payer a key |
| `Races.SolvencyIsTheBankLock` | src/control_plane/pgbank.py:95-101 | the same of solvency and one payment a bank, for an account holding less than twice the amount |
| `Bank.Conservation` | src/control_plane/bank.py:150-177 | over any calls, refused, repeated or timed out, an account is its opening balance less the distinct booked debits, and none goes negative |
| `Bank.KeyIsSpentOnce` | src/control_plane/bank.py:158-160 | a booked key is answered with its first receipt for ever, whatever is asked, and moves nothing |
| `Bank.EveryRequestIsAnsweredRightly` | src/control_plane/bank.py:150-177 | from the positions before and after any request: paid exactly when its key was booked before or is now and the cents are not 13, silent exactly when newly booked and they are, each refusal exactly under its own condition; only a booking moves anything, and what |
| `Bank.FindContactsMeans` | src/control_plane/bank.py:133-135 | the matches are, in order, exactly the contacts whose folded name holds the needle |
| `Bank.MockBank.CreatePix` | src/control_plane/bank.py:150-177 | the bank's whole next position, and an answer given rightly in the sense of `EveryRequestIsAnsweredRightly` |
| `Bank.MockBank.Fresh` | src/control_plane/bank.py:89-107 | after any history a fresh bank stands at the opening position with an empty book |
| `PgBank.PgBank.CreatePix` | src/control_plane/pgbank.py:84-121 | left alone, the bank over the shared book does and answers what the in-memory bank does, and rightly in the same sense |
| `PgBank.PgBank.Fresh` | src/control_plane/pgbank.py:57-65 | opening balances over the very same book |
| `Policy.AssessRisk` | src/control_plane/policy.py:80-99 | each signal is raised, in order, exactly under its own condition: recipient never paid, above R$ 500, device not trusted; high exactly when two fire, low exactly when none does |
| `Policy.VerdictsAreRight` | src/control_plane/policy.py:115-169 | which verdict, by which rule, is given exactly when, in figures |
| `Machine.TableByHop` | src/control_plane/state.py:57-77 | every hop has one target and is taken from these states only |
| `Stores.MemoryStore.ByConfirmation` | src/control_plane/store.py:107-111 | the loop finds the live object of the row the scan finds |
| `Stores.MemoryStore.Unsettled` | src/control_plane/store.py:113-115 | the loop collects the live objects of the rows in that state, in order |
| `Stores.MemoryStore.EventsFor` | src/control_plane/state.py:152-153 | the loop collects an intent's trail |
| `Stores.TakeEdge` | src/control_plane/state.py:180-201 | moves along an edge of the table, its ledger row written, or refuses, the refusal written and nothing moved |
| `Control.ControlPlane.Propose` | src/control_plane/plane.py:178-242 | over live objects, the durable state and reply of the copying store's script |
| `Control.ControlPlane.StepUp` | src/control_plane/plane.py:244-267 | the same for a step-up |
| `Control.ControlPlane.Confirm` | src/control_plane/plane.py:269-332 | the same for a confirmation; when the process dies in the bank call, exactly when, and exactly which writes are left |
| `Control.ControlPlane.Cancel` | src/control_plane/plane.py:334-346 | the same for a cancellation, refused ones included |
| `Control.ControlPlane.Reconcile` | src/control_plane/plane.py:348-364 | the same for a reconciliation |
| `Control.ControlPlane.Sweep` | src/control_plane/plane.py:366-389 | the loop over stranded live intents leaves what the sweep's script says, and returns their ids |
| `Control.ControlPlane.Query` | src/control_plane/plane.py:130-172 | the balance read, refused or raised, with the events it leaves |
| `Control.ControlPlane.Explain` | src/control_plane/plane.py:395-406 | the trail, for the conversation that opened it, and nothing for any other |
| `Control.ControlPlane.Serve` | src/control_plane/store.py:92-130 | a whole run of calls over live objects gives the copying store's state and replies |
| `Control.CrashesAreRunSteps` | tests/fakes.py:96-129 | what a crash in the bank call leaves is a crash step of the serial system |
| `Scopes.Scopes.PlaneFor` | examples/banking/tools.py:105-150 | one plane a conversation, always the same, over the shared store and book, with a bank no other scope has, at the opening balances at first |
| `Service.Service.StartUp` | src/control_plane/plane.py:86-115 | a new process holds no conversation's balances; store, ledger and book are as they were |
| `Service.Service.Run` | examples/banking/tools.py:105-150 | any commands to live planes of any number of conversations over one store and one book, deaths in the bank call, restarts, sweeps and rewritten actions included, leave the state and give the replies of the serial run they are, so its theorems hold of the live service |
| `Sse.FirstToStartEndsFirst` | ui/src/api.ts:167-175 | the terminator that starts first is the first to be complete |
| `Sse.TakeFrameIsStable` | ui/src/api.ts:167-175 | a frame taken from a buffer is the frame taken from any longer text |
| `Sse.DrainInTwo` | ui/src/api.ts:228-238 | draining what came, then the leftover with what comes, is draining it all |
| `Sse.ParseFrame` | ui/src/api.ts:178-193 | of any text: the event of the last line that names one, `message` if none does, and the values of all data lines joined, in order; nothing exactly when there is no data line |
| `Sse.ReadSse` | ui/src/api.ts:213-247 | the frames read depend on the text alone, never on where it was split: they are what its pieces between blank lines are read as, an unended last one included |
| `Sse.BrowserReadsWhatWasPrinted` | src/trail/runtime/events.py:101-111 | the browser reads back exactly what was printed, unless a field ends in a carriage return |
| `Sse.IterSse` | src/trail/runtime/events.py:114-139 | of any lines: one frame, in order, for every data line under a name in force that is not blank, and of what |
| `Sse.LineReaderReadsWhatWasPrinted` | src/trail/runtime/events.py:101-139 | the line reader yields each named frame stripped, and exactly what was printed just when all are named and trimmed |
| `Money.RoundTrip` | src/control_plane/plane.py:67-71 | what is displayed reads back as the amount it was exactly when it is not between -0,99 and -0,01 |
| `Money.TypedAmountsRead` | examples/banking/tools.py:181-189 | whole reais, and reais and centavos after a point or a comma, read as what they say, with the currency in front or without |
| `Money.SpaceAndCurrencyAreNotRead` | examples/banking/tools.py:181-189 | space anywhere and the currency in front change no reading |
| `Money.PointsAreNotReadBesideAComma` | examples/banking/tools.py:181-189 | beside a comma a point anywhere changes no reading |
| `Money.OnlyTheSpelledIsRead` | examples/banking/tools.py:186-189 | exactly sign, digits, point, digits are read |
| `Money.GroupedByThrees` | src/control_plane/plane.py:67-71 | from the right, every fourth character is the separator, the rest the digits in order |
| `Money.AsDocumented` | src/control_plane/plane.py:68 | the documented examples, to the letter |
| `Money.DisplayedAlike` | examples/banking/tools.py:181-189 | two amounts are displayed alike only when equal or when one lost its sign |
| `Threads.ThreadIndex.RecordTurn` | src/trail/runtime/threads.py:140-173 | unchanged exactly when a named customer speaks on another's thread; else one turn more, now as the last time, created time, title and owner kept or set, every other record as it was |
| `Threads.TimesAreTrue` | src/trail/runtime/threads.py:163-173 | over any run a thread was last updated by the last step it accepted, and created by the one it began with |
| `Threads.TitleIsRight` | src/trail/runtime/threads.py:73-83 | the message's words a space apart; past sixty characters cut there, outer space off, marked |
| `Threads.ResetsAreRecorded` | src/trail/runtime/threads.py:110-137 | opening starts a thread over for the opener, forgetting ends it, no other record changes |
| `Threads.ThreadIndex.ListThreads` | src/trail/runtime/threads.py:176-250 | the loop, the sort and the cut give the page |
| `Threads.ThreadIndex.VisibleTo` | src/trail/runtime/threads.py:271-289 | a thread of somebody else and one that never existed are invisible alike |
| `Threads.OwnerIsForever` | src/trail/runtime/threads.py:140-173 | over any run an owner once set stays until the thread is forgotten or opened again for another |
| `Threads.TitleIsForever` | src/trail/runtime/threads.py:146-148 | a title once given is never rewritten while the thread lives |
| `Threads.TurnsAreTurnsTaken` | src/trail/runtime/threads.py:162-173 | `turns` counts the accepted turns since the thread was opened |
| `Threads.NewestFirstSorts` | src/trail/runtime/threads.py:249 | newest first, the same rows, ties in the store's order |
| `Threads.ListingIs` | src/trail/runtime/threads.py:230-249 | exactly the customer's spoken-to threads among the first thousand of its own records, newest first, no repeats, each with its record's own times, turns and title |
| `Threads.ListingIsComplete` | src/trail/runtime/threads.py:68-70 | complete exactly when none of them lies beyond the window |
| `Threads.PagesAreTheListing` | src/trail/runtime/threads.py:250 | consecutive pages concatenate to the listing |
| `Threads.PageIs` | src/trail/runtime/threads.py:250 | a page is the rows of the listing from `offset` on, at most `limit` |
| `Threads.OthersDoNotShow` | src/trail/runtime/threads.py:225-236 | a customer's pages are the same with everyone else's records taken out |
| `Evals.ApplyChecks` | src/trail/evals/runner.py:101-149 | one result a check whatever it does, passed exactly when it ran and found nothing; the findings are those produced, and one error in its own name for each that raised |
| `Evals.RunCase` | src/trail/evals/runner.py:179-237 | the recorded results of a case that completed, or of one that failed anywhere |
| `Evals.RecordedAre` | src/trail/evals/runner.py:152-237 | a completed case records, of every check keyed by one of its turns and every last-turn check, whether it passed, and nothing else; any other, all it declares as failed |
| `Evals.CompletesExactly` | src/trail/evals/runner.py:179-237 | a case completes exactly when its thread opens, it has turns, all are answered, and no check asked returns what is not a list; one that raises stops nothing |
| `Evals.RatesCount` | src/trail/evals/metrics.py:159-166 | a rate counts, of all recorded results that join the metric, those that passed |
| `Evals.RecordedTotal` | src/trail/evals/cases.py:187-196 | a case records all it declares under a metric, less stray checks when it completes |
| `Evals.FailureOwesEverything` | src/trail/evals/runner.py:152-176 | a case that did not complete passes nothing and still owes every check it declares |
| `Evals.TotalsIgnoreFailures` | src/trail/evals/runner.py:152-176 | totals are independent of failures exactly when every per-turn check is keyed by a turn the case has, or there are none |
| `Evals.RatesKeepTheirDenominator` | src/trail/evals/metrics.py:159-166 | over a sound golden set every rate has the declared denominator, whatever fails |

## Left out

- HTTP, FastAPI routes, the CLI, React components, deployment and cost scripts: input, output and presentation.
- LangChain and LangGraph middleware, guard gates, traces, prompts, regex checks and the judge: their behaviour is a library's or a model's.
- `card_transactions`, token costs, percentiles and baselines: easy members, or floats.
- Identity: the caller's `Context` is given.
- `action_digest` is the free injective function of secret and action; HMAC and JSON encoding are not modelled.
- `new_id` is a supply of fresh ids; a collision is not modelled in the runs (the class methods allow one).
- `reason`, messages, `created_at` and event timestamps are not fields of the model. `reason` is assigned after the last save at src/control_plane/plane.py:233 and src/control_plane/plane.py:513, so the two stores do differ on it.
- The stored order of rows is first insertion; `ORDER BY created_at` agrees with it up to ties.
- Local time is UTC-3 without daylight saving; recipients are compared already stripped and case-folded.
- Postgres: atomic upsert, insert-if-absent, appends in sequence and copies on read are taken as given; pools, SQL and schema are not modelled.
- In the interleaved system the balances and known recipients a plan reads are arbitrary (`seen`), and an operation plans from one read of the store; a worker that dies takes its bank's memory with it.
- Reconciling against another conversation's private in-memory bank, and a sweep in the middle of another process's bank call, are outside the serial runs; the second is inside the interleaved ones.
- Live planes run on the bank over the shared book. The in-memory bank, which keeps a book of its own, is proved to keep the same contract (`Bank.MockBank.CreatePix`), but no plane is driven on it.
- In `Service` a process dies in the bank call, where the repository's own tests make it die; a crash between any two other writes is in the serial system only. The store outlives the process.
- Non-interference between customers is proved of serial runs; of interleaved workers it is not claimed. Under the lock on each intent, `Locks.LockedIsSerializable` gives each intent a serial run of operations on it alone.
- Locks.LockedIsSerializable: intent by intent, and with any balances; one serial order for all intents at once, with the balances of one bank, is not claimed, since a bank is shared without a lock.
- Hours.NothingLargeIsPaidAtNight: two readings of one operation are at most `slack` apart, and no token in the store was issued after the first.
- Nothing in the source takes the locks of `Locks` and `Payers`: they say what a caller would have to keep.
- Proposals.PaymentsWereAssessed: of serial runs; of interleaved workers the balances and known recipients policy reads are arbitrary, so only the recorded risk level is spoken of.
- Guarantees.NothingLargeAtNight: with two clock readings of one operation a `slack` apart, the window starts `slack` later; the clock is monotone.
- Money.RoundTrip: amounts with two decimals; texts that are not sign, digits, point, digits are `NotPlain`, and what the decimal library makes of them is not modelled.
- Sse.LineReaderReadsWhatWasPrinted: lines are split at line feeds; how an HTTP library splits at other characters, UTF-8 decoding and JSON are not modelled. A payload JSON printed has no outer space, so only an event name can fall outside the condition.
- Sse.ReadSse: one decoded text a chunk; section 9.2.6 of the WHATWG HTML Living Standard also ends a line at a lone carriage return, and mixes terminators, which `takeFrame` does not.
- Sse.BrowserReadsWhatWasPrinted: the payload is any text without a line feed; one that JSON printed has no raw carriage return either, so only an event name can fall outside the condition.
- A runtime without a store (`store is None`) returns early in every function of the thread index; that branch is not modelled, nor are negative limits and offsets.
- The findings a check returns are opaque; the label of a per-turn result is its turn number.
