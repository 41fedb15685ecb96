/** The in-memory store: three independent tables keyed by id, and the three
    id counters that the entity constructors draw from. The store validates
    nothing; it only keeps each record under its own id. */
module Store {
  import opened Results
  import opened Users
  import opened Transactions
  import opened Goals
  import opened Collections

  class InMemoryDatabase {
    var users: map<int, User>
    var transactions: map<int, Transaction>
    var goals: map<int, Goal>
    /** The next id each constructor hands out; ids start at 1. */
    var nextUserId: int
    var nextTransactionId: int
    var nextGoalId: int

    /** `id` has already been handed out by the user counter. */
    predicate IssuedUserId(id: int)
      reads this
    {
      1 <= id < nextUserId
    }

    predicate IssuedTransactionId(id: int)
      reads this
    {
      1 <= id < nextTransactionId
    }

    predicate IssuedGoalId(id: int)
      reads this
    {
      1 <= id < nextGoalId
    }

    /** Every record sits under its own id, and that id was issued by its counter. */
    ghost predicate Valid()
      reads this
    {
      && 1 <= nextUserId && 1 <= nextTransactionId && 1 <= nextGoalId
      && (forall id :: id in users ==> users[id].id == id && IssuedUserId(id))
      && (forall id :: id in transactions ==> transactions[id].id == id && IssuedTransactionId(id))
      && (forall id :: id in goals ==> goals[id].id == id && IssuedGoalId(id))
    }

    constructor ()
      ensures Valid()
      ensures users == map[] && transactions == map[] && goals == map[]
      ensures nextUserId == 1 && nextTransactionId == 1 && nextGoalId == 1
    {
      users, transactions, goals := map[], map[], map[];
      nextUserId, nextTransactionId, nextGoalId := 1, 1, 1;
    }

    // ---- entity construction (the id counters) ----

    /** Constructs an account: it takes the current counter value as its id,
        the counter moves on, and the other fields are stored as given. */
    method NewUser(email: string, password: string, name: string, role: Role) returns (u: User)
      requires Valid()
      modifies this`nextUserId
      ensures Valid()
      ensures u == User(old(nextUserId), email, password, name, role)
      ensures nextUserId == old(nextUserId) + 1 && IssuedUserId(u.id)
      ensures u.id !in users
      ensures forall id :: old(IssuedUserId(id)) ==> id < u.id
    {
      u := User(nextUserId, email, password, name, role);
      nextUserId := nextUserId + 1;
    }

    /** Constructs a transaction with the current counter value as its id. */
    method NewTransaction(userId: int, amount: real, category: string, date: Date,
                          description: string, kind: TransactionType)
      returns (t: Transaction)
      requires Valid()
      modifies this`nextTransactionId
      ensures Valid()
      ensures t == Transaction(old(nextTransactionId), userId, amount, category, date, description, kind)
      ensures nextTransactionId == old(nextTransactionId) + 1 && IssuedTransactionId(t.id)
      ensures t.id !in transactions
      ensures forall id :: old(IssuedTransactionId(id)) ==> id < t.id
    {
      t := Transaction(nextTransactionId, userId, amount, category, date, description, kind);
      nextTransactionId := nextTransactionId + 1;
    }

    /** Constructs a goal with the current counter value as its id and no progress yet. */
    method NewGoal(userId: int, title: string, targetAmount: real) returns (g: Goal)
      requires Valid()
      modifies this`nextGoalId
      ensures Valid()
      ensures g == Goal(old(nextGoalId), userId, title, targetAmount, 0.0)
      ensures nextGoalId == old(nextGoalId) + 1 && IssuedGoalId(g.id)
      ensures g.id !in goals
      ensures forall id :: old(IssuedGoalId(id)) ==> id < g.id
    {
      g := Goal(nextGoalId, userId, title, targetAmount, 0.0);
      nextGoalId := nextGoalId + 1;
    }

    // ---- users ----

    /** Inserts or overwrites the account under its id and returns it. */
    method SaveUser(user: User) returns (saved: User)
      requires Valid() && IssuedUserId(user.id)
      modifies this`users
      ensures Valid()
      ensures saved == user
      ensures users == old(users)[user.id := user]
      ensures FindUserById(user.id) == Some(user)
    {
      users := users[user.id := user];
      saved := user;
    }

    function FindUserById(id: int): (r: Option<User>)
      reads this
      requires Valid()
      ensures r.Some? <==> id in users
      ensures r.Some? ==> r.value == users[id] && r.value.id == id
    {
      if id in users then Some(users[id]) else None
    }

    /** A scan over the stored accounts that stops at the first whose email
        equals `email` exactly. */
    method FindUserByEmail(email: string) returns (r: Option<User>)
      ensures r.None? <==> forall u :: u in users.Values ==> u.email != email
      ensures r.Some? ==> r.value in users.Values && r.value.email == email
    {
      var rest := users.Values;
      while rest != {}
        invariant rest <= users.Values
        invariant forall u :: u in users.Values && u !in rest ==> u.email != email
        decreases rest
      {
        NonEmptyHasElement(rest);
        var u :| u in rest;
        if u.email == email {
          return Some(u);
        }
        rest := rest - {u};
      }
      return None;
    }

    /** Every stored account, each exactly once. */
    function FindAllUsers(): (r: set<User>)
      reads this
      requires Valid()
      ensures forall u :: u in r <==> u.id in users && users[u.id] == u
      ensures |r| == |users|
    {
      KeyedValuesCount(users, (u: User) => u.id);
      users.Values
    }

    /** Removes the id if present; an absent id is left alone. */
    method DeleteUser(id: int)
      requires Valid()
      modifies this`users
      ensures Valid()
      ensures users == old(users) - {id}
      ensures id !in old(users) ==> users == old(users)
      ensures FindUserById(id) == None
    {
      users := users - {id};
    }

    // ---- transactions ----

    method SaveTransaction(transaction: Transaction) returns (saved: Transaction)
      requires Valid() && IssuedTransactionId(transaction.id)
      modifies this`transactions
      ensures Valid()
      ensures saved == transaction
      ensures transactions == old(transactions)[transaction.id := transaction]
      ensures FindTransactionById(transaction.id) == Some(transaction)
    {
      transactions := transactions[transaction.id := transaction];
      saved := transaction;
    }

    function FindTransactionById(id: int): (r: Option<Transaction>)
      reads this
      requires Valid()
      ensures r.Some? <==> id in transactions
      ensures r.Some? ==> r.value == transactions[id] && r.value.id == id
    {
      if id in transactions then Some(transactions[id]) else None
    }

    function FindAllTransactions(): (r: set<Transaction>)
      reads this
      requires Valid()
      ensures forall t :: t in r <==> t.id in transactions && transactions[t.id] == t
      ensures |r| == |transactions|
    {
      KeyedValuesCount(transactions, (t: Transaction) => t.id);
      transactions.Values
    }

    method DeleteTransaction(id: int)
      requires Valid()
      modifies this`transactions
      ensures Valid()
      ensures transactions == old(transactions) - {id}
      ensures id !in old(transactions) ==> transactions == old(transactions)
      ensures FindTransactionById(id) == None
    {
      transactions := transactions - {id};
    }

    // ---- goals ----

    method SaveGoal(goal: Goal) returns (saved: Goal)
      requires Valid() && IssuedGoalId(goal.id)
      modifies this`goals
      ensures Valid()
      ensures saved == goal
      ensures goals == old(goals)[goal.id := goal]
      ensures FindGoalById(goal.id) == Some(goal)
    {
      goals := goals[goal.id := goal];
      saved := goal;
    }

    function FindGoalById(id: int): (r: Option<Goal>)
      reads this
      requires Valid()
      ensures r.Some? <==> id in goals
      ensures r.Some? ==> r.value == goals[id] && r.value.id == id
    {
      if id in goals then Some(goals[id]) else None
    }

    function FindAllGoals(): (r: set<Goal>)
      reads this
      requires Valid()
      ensures forall g :: g in r <==> g.id in goals && goals[g.id] == g
      ensures |r| == |goals|
    {
      KeyedValuesCount(goals, (g: Goal) => g.id);
      goals.Values
    }

    method DeleteGoal(id: int)
      requires Valid()
      modifies this`goals
      ensures Valid()
      ensures goals == old(goals) - {id}
      ensures id !in old(goals) ==> goals == old(goals)
      ensures FindGoalById(id) == None
    {
      goals := goals - {id};
    }
  }
}
