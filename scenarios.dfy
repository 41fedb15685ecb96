/** Client code that uses only the contracts of the services: register and
    log in, compute a balance, make progress on a goal, delete twice. */
module Scenarios {
  import opened Results
  import opened Users
  import opened Transactions
  import opened Goals
  import opened Store
  import opened UserServices
  import opened TransactionServices
  import opened GoalServices

  method RegisterLoginAndDuplicate()
  {
    var db := new InMemoryDatabase();
    var accounts := new UserService(db);
    var ann := accounts.Register("a@x.com", "p", "Ann", USER);
    assert ann.Ok? && ann.value.id == 1;
    assert db.users == map[1 := ann.value];
    assert EmailsUnique(db.users);
    assert ann.value in db.users.Values;
    var session := accounts.Login("a@x.com", "p");
    assert session.Ok? && session.value == ann.value;
    var wrong := accounts.Login("a@x.com", "q");
    assert wrong == Err(InvalidCredentials);
    var again := accounts.Register("a@x.com", "q", "Bob", ADMIN);
    assert again == Err(DuplicateEmail("a@x.com"));
    assert !accounts.IsAdmin(ann.value);
  }

  method BalanceOfTwoTransactions()
  {
    var db := new InMemoryDatabase();
    var ledger := new TransactionService(db);
    var lunch := ledger.CreateTransaction(1, 100.0, "Food", Date(2025, 3, 10), "Lunch", EXPENSE);
    var pay := ledger.CreateTransaction(1, 500.0, "Salary", Date(2025, 3, 1), "Pay", INCOME);
    assert db.FindAllTransactions() == {} + {lunch} + {pay};
    BalanceOfNoTransactions({}, 1);
    BalanceAfterInsert({}, lunch, 1);
    BalanceAfterInsert({} + {lunch}, pay, 1);
    var balance := ledger.CalculateBalance(1);
    assert balance == 400.0;
  }

  method GoalProgress()
  {
    var db := new InMemoryDatabase();
    var savings := new GoalService(db);
    var goal := savings.CreateGoal(7, "X", 100.0);
    var first := savings.AddAmountToGoal(goal.id, 40.0);
    var second := savings.AddAmountToGoal(goal.id, 70.0);
    assert second.Done? && db.goals[goal.id].currentAmount == 110.0;
    assert db.goals[goal.id].IsCompleted();
    var raised := savings.UpdateGoal(goal.id, "X", 200.0);
    assert !db.goals[goal.id].IsCompleted() && db.goals[goal.id].currentAmount == 110.0;
    var missing := savings.AddAmountToGoal(goal.id + 1, 5.0);
    assert missing == Failed(NotFound(GoalEntity, goal.id + 1));
  }

  method DeletingTwice()
  {
    var db := new InMemoryDatabase();
    var savings := new GoalService(db);
    var goal := savings.CreateGoal(7, "X", 100.0);
    savings.DeleteGoal(goal.id);
    ghost var afterFirst := db.goals;
    savings.DeleteGoal(goal.id);
    assert db.goals == afterFirst == map[];
    var accounts := new UserService(db);
    accounts.DeleteUser(42);
    assert db.users == map[];
  }
}
