/** Transaction rules on top of the store: creation, update of an existing
    record, deletion, the per-owner listing and the balance. */
module TransactionServices {
  import opened Results
  import opened Transactions
  import opened Store
  import opened Collections

  /** The transactions of `ts` that belong to `userId`. */
  function OwnedBy(ts: set<Transaction>, userId: int): set<Transaction>
  {
    set t | t in ts && t.userId == userId
  }

  /** The transactions of `ts` of the given kind. */
  function OfKind(ts: set<Transaction>, kind: TransactionType): set<Transaction>
  {
    set t | t in ts && t.kind == kind
  }

  /** The sum of `w` over a finite set of transactions, in no particular order. */
  ghost function Sum(ts: set<Transaction>, w: Transaction -> real): real
    decreases ts
  {
    if ts == {} then 0.0 else var t := Pick(ts); w(t) + Sum(ts - {t}, w)
  }

  function Amount(t: Transaction): real
  {
    t.amount
  }

  /** What a transaction does to its owner's balance: plus for income, minus for expense. */
  function SignedAmount(t: Transaction): real
  {
    match t.kind
    case INCOME => t.amount
    case EXPENSE => -t.amount
  }

  /** The amount of a transaction of kind `kind`, zero for the other kind. */
  function KindWeight(kind: TransactionType): Transaction -> real
  {
    (t: Transaction) => if t.kind == kind then t.amount else 0.0
  }

  /** The total amount of the transactions of one kind. */
  ghost function KindTotal(ts: set<Transaction>, kind: TransactionType): real
  {
    Sum(OfKind(ts, kind), Amount)
  }

  /** The balance as the source computes it: total income of the owner minus
      total expense of the owner. */
  ghost function Balance(ts: set<Transaction>, userId: int): real
  {
    KindTotal(OwnedBy(ts, userId), INCOME) - KindTotal(OwnedBy(ts, userId), EXPENSE)
  }

  /** The sum does not depend on which element is taken out first. */
  lemma {:induction false} SumRemove(ts: set<Transaction>, t: Transaction, w: Transaction -> real)
    requires t in ts
    ensures Sum(ts, w) == w(t) + Sum(ts - {t}, w)
    decreases ts
  {
    var p := Pick(ts);
    if t != p {
      SumRemove(ts - {p}, t, w);
      SumRemove(ts - {t}, p, w);
      assert ts - {p} - {t} == ts - {t} - {p};
    }
  }

  /** Summing a difference is the difference of the sums. */
  lemma {:induction false} SumDifference(ts: set<Transaction>, w1: Transaction -> real,
                                         w2: Transaction -> real, d: Transaction -> real)
    requires forall t :: d(t) == w1(t) - w2(t)
    ensures Sum(ts, d) == Sum(ts, w1) - Sum(ts, w2)
    decreases ts
  {
    if ts != {} {
      SumDifference(ts - {Pick(ts)}, w1, w2, d);
    }
  }

  /** Filtering by kind and summing is summing the kind's weight over everything. */
  lemma {:induction false} KindTotalIsWeighted(ts: set<Transaction>, kind: TransactionType)
    ensures KindTotal(ts, kind) == Sum(ts, KindWeight(kind))
    decreases ts
  {
    if ts != {} {
      var t := Pick(ts);
      KindTotalIsWeighted(ts - {t}, kind);
      if t.kind == kind {
        SumRemove(OfKind(ts, kind), t, Amount);
        assert OfKind(ts, kind) - {t} == OfKind(ts - {t}, kind);
      } else {
        assert OfKind(ts, kind) == OfKind(ts - {t}, kind);
      }
    }
  }

  /** Every transaction is of exactly one kind, so its signed amount is its
      income weight minus its expense weight. */
  lemma SignedAmountSplits(t: Transaction)
    ensures SignedAmount(t) == KindWeight(INCOME)(t) - KindWeight(EXPENSE)(t)
    ensures KindWeight(INCOME)(t) == 0.0 || KindWeight(EXPENSE)(t) == 0.0
  {
  }

  /** The two-pass balance equals the single-pass signed sum over the owner's transactions. */
  lemma BalanceIsSignedSum(ts: set<Transaction>, userId: int)
    ensures Balance(ts, userId) == Sum(OwnedBy(ts, userId), SignedAmount)
  {
    var mine := OwnedBy(ts, userId);
    KindTotalIsWeighted(mine, INCOME);
    KindTotalIsWeighted(mine, EXPENSE);
    forall t ensures SignedAmount(t) == KindWeight(INCOME)(t) - KindWeight(EXPENSE)(t) {
      SignedAmountSplits(t);
    }
    SumDifference(mine, KindWeight(INCOME), KindWeight(EXPENSE), SignedAmount);
  }

  /** An owner without transactions has balance zero. */
  lemma BalanceOfNoTransactions(ts: set<Transaction>, userId: int)
    requires forall t :: t in ts ==> t.userId != userId
    ensures Balance(ts, userId) == 0.0
  {
    assert OwnedBy(ts, userId) == {};
  }

  /** Adding a new transaction moves its owner's balance by its signed amount
      and leaves every other owner's balance alone. */
  lemma BalanceAfterInsert(ts: set<Transaction>, t: Transaction, userId: int)
    requires t !in ts
    ensures Balance(ts + {t}, userId) ==
              Balance(ts, userId) + (if t.userId == userId then SignedAmount(t) else 0.0)
  {
    BalanceIsSignedSum(ts, userId);
    BalanceIsSignedSum(ts + {t}, userId);
    if t.userId == userId {
      SumRemove(OwnedBy(ts + {t}, userId), t, SignedAmount);
      assert OwnedBy(ts + {t}, userId) - {t} == OwnedBy(ts, userId);
    } else {
      assert OwnedBy(ts + {t}, userId) == OwnedBy(ts, userId);
    }
  }

  /** The stream pass `filter(kind).mapToDouble(amount).sum()` over a set of transactions. */
  method SumOfKind(ts: set<Transaction>, kind: TransactionType) returns (s: real)
    ensures s == KindTotal(ts, kind)
  {
    s := 0.0;
    var rest := ts;
    while rest != {}
      invariant rest <= ts
      invariant s + KindTotal(rest, kind) == KindTotal(ts, kind)
      decreases rest
    {
      NonEmptyHasElement(rest);
      var t :| t in rest;
      if t.kind == kind {
        SumRemove(OfKind(rest, kind), t, Amount);
        assert OfKind(rest, kind) - {t} == OfKind(rest - {t}, kind);
        s := s + t.amount;
      } else {
        assert OfKind(rest, kind) == OfKind(rest - {t}, kind);
      }
      rest := rest - {t};
    }
  }

  class TransactionService {
    const db: InMemoryDatabase

    constructor (db: InMemoryDatabase)
      ensures this.db == db
    {
      this.db := db;
    }

    /** Stores a new transaction with a fresh id and exactly the given fields;
        the owner is not checked. */
    method CreateTransaction(userId: int, amount: real, category: string, date: Date,
                             description: string, kind: TransactionType)
      returns (t: Transaction)
      requires db.Valid()
      modifies db`transactions, db`nextTransactionId
      ensures db.Valid()
      ensures t == Transaction(old(db.nextTransactionId), userId, amount, category, date, description, kind)
      ensures t.id !in old(db.transactions) && db.nextTransactionId == old(db.nextTransactionId) + 1
      ensures db.transactions == old(db.transactions)[t.id := t]
      ensures t !in old(db.FindAllTransactions())
      ensures db.FindAllTransactions() == old(db.FindAllTransactions()) + {t}
    {
      var created := db.NewTransaction(userId, amount, category, date, description, kind);
      t := db.SaveTransaction(created);
      ValuesAfterInsert(old(db.transactions), t.id, t);
    }

    /** Replaces amount, category and description of a stored transaction;
        owner, date and kind stay as they were. */
    method UpdateTransaction(transactionId: int, amount: real, category: string, description: string)
      returns (r: Outcome)
      requires db.Valid()
      modifies db`transactions
      ensures db.Valid()
      ensures r.Failed? <==> transactionId !in old(db.transactions)
      ensures r.Failed? ==> r.error == NotFound(TransactionEntity, transactionId)
      ensures r.Failed? ==> db.transactions == old(db.transactions)
      ensures r.Done? ==> db.transactions == old(db.transactions)[transactionId :=
                old(db.transactions)[transactionId].(amount := amount, category := category,
                                                      description := description)]
    {
      var found := db.FindTransactionById(transactionId);
      if found.None? {
        return Failed(NotFound(TransactionEntity, transactionId));
      }
      var saved := db.SaveTransaction(found.value.(amount := amount, category := category,
                                                   description := description));
      r := Done;
    }

    /** Removes the transaction if present; never fails. */
    method DeleteTransaction(transactionId: int)
      requires db.Valid()
      modifies db`transactions
      ensures db.Valid()
      ensures db.transactions == old(db.transactions) - {transactionId}
      ensures transactionId !in old(db.transactions) ==> db.transactions == old(db.transactions)
    {
      db.DeleteTransaction(transactionId);
    }

    /** The stored transactions whose owner is `userId`. */
    function GetUserTransactions(userId: int): (r: set<Transaction>)
      reads db
      requires db.Valid()
      ensures forall t :: t in r <==> t.id in db.transactions && db.transactions[t.id] == t && t.userId == userId
    {
      OwnedBy(db.FindAllTransactions(), userId)
    }

    /** Income minus expense over the owner's stored transactions. */
    method CalculateBalance(userId: int) returns (balance: real)
      requires db.Valid()
      ensures balance == Balance(db.FindAllTransactions(), userId)
      ensures balance == Sum(GetUserTransactions(userId), SignedAmount)
    {
      var mine := GetUserTransactions(userId);
      var income := SumOfKind(mine, INCOME);
      var expense := SumOfKind(mine, EXPENSE);
      balance := income - expense;
      BalanceIsSignedSum(db.FindAllTransactions(), userId);
    }
  }
}
