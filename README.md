# Personal-finance tracker: store and services, modelled in Dafny

This project models the business and data layer of a small in-memory personal
finance tracker. It has three entities: an account (`User`), an income or
expense record (`Transaction`) and a savings goal (`Goal`). A store
(`InMemoryDatabase`) keeps each entity kind in its own table, keyed by id. Three
services sit on top of the store. `UserService` keeps emails unique, checks
logins and tells administrators apart. `TransactionService` creates, updates
and deletes transactions, lists an owner's transactions and computes the
owner's balance. `GoalService` creates goals, adds to their progress, edits
them and lists an owner's goals.

Files, one module each:

- `results.dfy` (`Results`): `Option`, the error kinds (`NotFound`, `DuplicateEmail`,
  `InvalidCredentials`), `Result<T>` for operations that return a value and
  `Outcome` for those that return nothing.
- `users.dfy`, `transactions.dfy`, `goals.dfy` (`Users`, `Transactions`, `Goals`): the
  entities as records. `Goal` carries its setters, `AddAmount` and the derived
  `IsCompleted`, with lemmas about them. `TransactionType` has exactly two
  constructors, `INCOME` and `EXPENSE`. `Role` has exactly two, `USER` and `ADMIN`.
- `collections.dfy` (`Collections`): facts about picking from sets and maps,
  and the lemma that a table filing each record under its own id has one
  distinct value per key.
- `in_memory_database.dfy` (`Store`): class `InMemoryDatabase` with fields
  `users`, `transactions` and `goals` (each a `map<int, _>`). It also has the three id
  counters `nextUserId`, `nextTransactionId` and `nextGoalId`, which start at 1.
  Its object invariant `Valid()` says that each record is stored under its own
  id and that this id was already handed out by its counter.
  `NewUser`/`NewTransaction`/`NewGoal` are the entity constructors. Each takes
  the counter value as the new id and then increments the counter.
- `user_service.dfy`, `transaction_service.dfy`, `goal_service.dfy`: the three
  service classes. Each holds the store as `const db`. The balance is specified
  by the functions `OwnedBy`, `OfKind`, `Sum` and `Balance`. `Sum` adds up a weight over a finite set.
- `scenarios.dfy`: client methods that use only the contracts. Register, log
  in, then fail a duplicate registration. Two transactions give balance 400.
  Progress 40 + 70 completes a goal with target 100, and raising the target
  reopens it. Deleting twice has the same effect as deleting once.

Frames say which table an operation may touch. For example, `UpdateUser` has
`modifies db`users`, so the transaction and goal tables cannot change. Every
failing operation leaves the store as it was.

Two behaviours of the code are easy to miss:

- A goal's progress can go down, because `addAmount` accepts negative amounts.
- `User` has a Lombok `setRole`, so the role is fixed only in the sense that no
  service operation changes it.

## Model

| member | source | states |
|---|---|---|
| `Store.InMemoryDatabase.constructor` | src/main/java/com/yourorganization/out/InMemoryDatabase.java:17-19 | a new store has three empty tables and all counters at 1 |
| `Store.InMemoryDatabase.NewUser` | src/main/java/com/yourorganization/domain/User.java:30-36 | the new account takes the current counter value as its id, which no stored account has and which exceeds every id issued before, deleted or not; the counter increments; email, password, name and role are stored as given |
| `Store.InMemoryDatabase.NewTransaction` | src/main/java/com/yourorganization/domain/Transaction.java:34-43 | the new transaction takes the current counter value as its id, which is not yet stored and exceeds every id issued before; the counter increments; owner, amount, category, date, description and kind are stored as given |
| `Store.InMemoryDatabase.NewGoal` | src/main/java/com/yourorganization/domain/Goal.java:22-28 | the new goal takes the current counter value as its id, which is not yet stored and exceeds every id issued before; the counter increments; owner, title and target are as given and progress is 0 |
| `Store.InMemoryDatabase.SaveUser` | src/main/java/com/yourorganization/out/InMemoryDatabase.java:27-30 | the user table becomes the old one with the account under its id (an upsert); the argument is returned; finding by that id gives it back; only the user table can change |
| `Store.InMemoryDatabase.FindUserById` | src/main/java/com/yourorganization/out/InMemoryDatabase.java:38-40 | finds something exactly when the id is a key, and then it is the stored account, whose id is that id; reads only |
| `Store.InMemoryDatabase.FindUserByEmail` | src/main/java/com/yourorganization/out/InMemoryDatabase.java:48-55 | nothing is found exactly when no stored account has that exact email; otherwise the result is a stored account with that email |
| `Store.InMemoryDatabase.FindAllUsers` | src/main/java/com/yourorganization/out/InMemoryDatabase.java:62-64 | exactly the stored accounts, one per stored id |
| `Store.InMemoryDatabase.DeleteUser` | src/main/java/com/yourorganization/out/InMemoryDatabase.java:71-73 | removes that key only; an absent id changes nothing; afterwards the id is not found |
| `Store.InMemoryDatabase.SaveTransaction` | src/main/java/com/yourorganization/out/InMemoryDatabase.java:81-84 | upsert of the transaction under its id; returns the argument; only the transaction table can change |
| `Store.InMemoryDatabase.FindTransactionById` | src/main/java/com/yourorganization/out/InMemoryDatabase.java:92-94 | finds something exactly when the id is a key, and then it is the stored record with that id |
| `Store.InMemoryDatabase.FindAllTransactions` | src/main/java/com/yourorganization/out/InMemoryDatabase.java:101-103 | exactly the stored transactions, one per stored id |
| `Store.InMemoryDatabase.DeleteTransaction` | src/main/java/com/yourorganization/out/InMemoryDatabase.java:110-112 | removes that key only; an absent id changes nothing |
| `Store.InMemoryDatabase.SaveGoal` | src/main/java/com/yourorganization/out/InMemoryDatabase.java:120-123 | upsert of the goal under its id; returns the argument; only the goal table can change |
| `Store.InMemoryDatabase.FindGoalById` | src/main/java/com/yourorganization/out/InMemoryDatabase.java:131-133 | finds something exactly when the id is a key, and then it is the stored goal with that id |
| `Store.InMemoryDatabase.FindAllGoals` | src/main/java/com/yourorganization/out/InMemoryDatabase.java:140-142 | exactly the stored goals, one per stored id |
| `Store.InMemoryDatabase.DeleteGoal` | src/main/java/com/yourorganization/out/InMemoryDatabase.java:149-151 | removes that key only; an absent id changes nothing |
| `Collections.KeyedValuesCount` | src/main/java/com/yourorganization/out/InMemoryDatabase.java:17-19 | a table that files each record under the record's own id has as many distinct records as keys, so listing the values loses nothing |
| `UserServices.UserService.Register` | src/main/java/com/yourorganization/service/UserService.java:32-38 | fails with `DuplicateEmail` exactly when a stored account already has the email, and then nothing changes; otherwise it stores and returns an account with a fresh id and the given fields; unique emails are preserved |
| `UserServices.UserService.Login` | src/main/java/com/yourorganization/service/UserService.java:48-54 | a success returns a stored account whose email and password equal the arguments; every failure is the same `InvalidCredentials`; with unique emails, it succeeds exactly when such an account exists |
| `UserServices.UserService.UpdateUser` | src/main/java/com/yourorganization/service/UserService.java:65-77 | an unknown id fails with `NotFound`; a failure changes nothing; success replaces email, password and name of that id only, keeping id and role (so admin status is unchanged); if no other account has the new email it succeeds (keeping one's own email is allowed); if the account does not hold the new email but some stored account does, it fails with `DuplicateEmail`; with unique emails, another account holding it always means `DuplicateEmail`; unique emails are preserved |
| `UserServices.UserService.DeleteUser` | src/main/java/com/yourorganization/service/UserService.java:84-86 | never fails; removes that id only and preserves unique emails |
| `UserServices.UserService.FindAllUsers` | src/main/java/com/yourorganization/service/UserService.java:93-95 | exactly the stored accounts, one per id |
| `UserServices.UserService.IsAdmin` | src/main/java/com/yourorganization/service/UserService.java:103-105 | true exactly for role `ADMIN`, false exactly for role `USER` |
| `UserServices.EmailIdentifiesUser` | src/main/java/com/yourorganization/service/UserService.java:33 | under unique emails, two stored accounts with the same email are the same account |
| `TransactionServices.TransactionService.CreateTransaction` | src/main/java/com/yourorganization/service/TransactionService.java:37-45 | always succeeds; stores and returns a transaction with a fresh id and exactly the given fields; the listed transactions gain exactly that one |
| `TransactionServices.TransactionService.UpdateTransaction` | src/main/java/com/yourorganization/service/TransactionService.java:56-64 | fails with `NotFound` exactly when the id is not stored, and then nothing changes; success replaces amount, category and description of that id only |
| `TransactionServices.TransactionService.DeleteTransaction` | src/main/java/com/yourorganization/service/TransactionService.java:71-73 | never fails; removes that id only; an absent id changes nothing |
| `TransactionServices.TransactionService.GetUserTransactions` | src/main/java/com/yourorganization/service/TransactionService.java:81-85 | exactly the stored transactions whose owner is the argument |
| `TransactionServices.TransactionService.CalculateBalance` | src/main/java/com/yourorganization/service/TransactionService.java:93-103 | reads only; equals total income minus total expense over the owner's stored transactions, and equals the single-pass signed sum |
| `TransactionServices.SumOfKind` | src/main/java/com/yourorganization/service/TransactionService.java:94-97 | the loop's result is the total amount of the transactions of that kind |
| `TransactionServices.SumRemove` | src/main/java/com/yourorganization/service/TransactionService.java:97 | summing a set does not depend on which element is taken first |
| `TransactionServices.SumDifference` | src/main/java/com/yourorganization/service/TransactionService.java:102 | the sum of a difference of weights is the difference of the sums |
| `TransactionServices.KindTotalIsWeighted` | src/main/java/com/yourorganization/service/TransactionService.java:94-101 | filtering by kind and then summing amounts equals summing, over all, the amount for that kind and 0 otherwise |
| `TransactionServices.SignedAmountSplits` | src/main/java/com/yourorganization/domain/Transaction.java:48-51 | each transaction is of exactly one kind: its signed amount is its income part minus its expense part, and one part is 0 |
| `TransactionServices.BalanceIsSignedSum` | src/main/java/com/yourorganization/service/TransactionService.java:93-103 | income total minus expense total equals the single-pass sum of +amount for income and -amount for expense |
| `TransactionServices.BalanceOfNoTransactions` | src/main/java/com/yourorganization/service/TransactionService.java:93-103 | an owner without transactions has balance 0 |
| `TransactionServices.BalanceAfterInsert` | src/main/java/com/yourorganization/service/TransactionService.java:93-103 | adding a new transaction changes its owner's balance by its signed amount and no other owner's balance |
| `GoalServices.GoalService.CreateGoal` | src/main/java/com/yourorganization/service/GoalService.java:33-36 | always succeeds; stores and returns a goal with a fresh id, the given owner, title and target, and progress 0 |
| `GoalServices.GoalService.AddAmountToGoal` | src/main/java/com/yourorganization/service/GoalService.java:45-51 | fails with `NotFound` exactly when the id is not stored, and then nothing changes; success raises that goal's progress by exactly the amount, of either sign, keeping title and target; other goals are unchanged |
| `GoalServices.GoalService.UpdateGoal` | src/main/java/com/yourorganization/service/GoalService.java:61-68 | fails with `NotFound` exactly when the id is not stored, and then nothing changes; success replaces title and target of that goal and keeps its progress |
| `GoalServices.GoalService.DeleteGoal` | src/main/java/com/yourorganization/service/GoalService.java:75-77 | never fails; removes that id only; an absent id changes nothing |
| `GoalServices.GoalService.GetUserGoals` | src/main/java/com/yourorganization/service/GoalService.java:85-89 | exactly the stored goals whose owner is the argument |
| `GoalServices.OwnerListsPartition` | src/main/java/com/yourorganization/service/GoalService.java:85-89 | each goal is listed for its own owner, and two different owners' lists share no goal |
| `Goals.AddAmountShiftsProgress` | src/main/java/com/yourorganization/domain/Goal.java:107-109 | adding moves the progress by exactly the amount and changes no other field |
| `Goals.AddAmountIsAdditive` | src/main/java/com/yourorganization/domain/Goal.java:107-109 | two additions equal one addition of their sum; adding a and then -a restores the goal |
| `Goals.SettersAreLocal` | src/main/java/com/yourorganization/domain/Goal.java:62-100 | each of the title, target and progress setters sets its own field and changes no other |
| `Goals.IdentityIsFixed` | src/main/java/com/yourorganization/domain/Goal.java:9-10 | no setter and no addition changes the goal's id or owner |
| `Goals.CompletionIsRecomputed` | src/main/java/com/yourorganization/domain/Goal.java:116-118 | completion is recomputed from the fields (progress at least target); raising the target above the progress, or adding enough of a negative amount, makes a completed goal incomplete |

## Left out

- The console front end and the program's entry point are left out. They only read input, call the services and print results.
- The unit tests are left out. They run against mocks.
- Amounts are Dafny `real`, not IEEE `double`. Rounding, and the way the result of summing doubles depends on their order, are not modelled.
- Ids and counters are unbounded integers. The wrap-around of the 64-bit `long` counters is not modelled.
- Dates are an opaque triple. Nothing in the core inspects them.
- The source's id counters are static, so they are shared by every store in the process. The model gives each store its own counters. An entity constructed for one store and saved into another is therefore not modelled.
- `Store.InMemoryDatabase.SaveUser`, `SaveTransaction` and `SaveGoal` require the record's id to have been handed out by the store's counter. In the source this holds for every object, because the constructor is the only way to create one.
- `findAll*`, `getUserTransactions` and `getUserGoals` return sets rather than Java collections and lists. Iteration order is not modelled. No duplicates can arise, because the records have distinct ids.
- Aliasing is not modelled. The services change the object the store handed out; the model replaces the record stored under that key, which leaves the store in the same state. A caller that kept the object would, in the source, see later changes through it; the model does not capture that.
- Null is not modelled. Null arguments, and stored accounts whose email is null (where `findUserByEmail` would throw), are outside the model.
- `setDate`, `setType` and `setRole` are Lombok setters that no service calls, so they are not modelled. `Goal.setCurrentAmount` is modelled as `WithCurrentAmount`, although no service calls it either.
- `calculateBalance` fetches the owner's transactions twice. The model fetches them once. Both fetches read the same unchanged store, so the result is the same.
- `Store.InMemoryDatabase.FindUserByEmail` may return any match. The source returns the first match in its hash-map order. When emails are unique there is only one match.
- `UserServices.UserService.Login` states "succeeds exactly when the credentials match a stored account" only when stored emails are unique. With duplicate emails, the source's answer depends on hash-map order. The services never create duplicates: `Register`, `UpdateUser` and `DeleteUser` preserve uniqueness.
- `UserServices.UserService.UpdateUser` states "another account holds the email, so `DuplicateEmail`" unconditionally only when the account itself does not already hold the new email. When both the account and another account hold it, the source's answer depends on hash-map order, so the model then promises it only when stored emails are unique.
- Concurrency is not modelled: the source is single-threaded. Password hashing is not modelled either: the source compares plaintext.
