/** Savings-goal rules on top of the store: creation with no progress,
    adding to the progress, replacing title and target, deletion and the
    per-owner listing. */
module GoalServices {
  import opened Results
  import opened Goals
  import opened Store

  /** The goals of `gs` that belong to `userId`. */
  function GoalsOwnedBy(gs: set<Goal>, userId: int): set<Goal>
  {
    set g | g in gs && g.userId == userId
  }

  /** Every goal is listed for its own owner and for no other. */
  lemma OwnerListsPartition(gs: set<Goal>, u: int, v: int)
    ensures forall g :: g in gs ==> g in GoalsOwnedBy(gs, g.userId)
    ensures u != v ==> GoalsOwnedBy(gs, u) !! GoalsOwnedBy(gs, v)
  {
  }

  class GoalService {
    const db: InMemoryDatabase

    constructor (db: InMemoryDatabase)
      ensures this.db == db
    {
      this.db := db;
    }

    /** Stores a new goal with a fresh id, the given owner, title and target, and
        no progress; the owner is not checked. */
    method CreateGoal(userId: int, title: string, targetAmount: real) returns (g: Goal)
      requires db.Valid()
      modifies db`goals, db`nextGoalId
      ensures db.Valid()
      ensures g == Goal(old(db.nextGoalId), userId, title, targetAmount, 0.0)
      ensures g.id !in old(db.goals) && db.nextGoalId == old(db.nextGoalId) + 1
      ensures db.goals == old(db.goals)[g.id := g]
    {
      var created := db.NewGoal(userId, title, targetAmount);
      g := db.SaveGoal(created);
    }

    /** Adds `amount` (of either sign) to the progress of a stored goal. */
    method AddAmountToGoal(goalId: int, amount: real) returns (r: Outcome)
      requires db.Valid()
      modifies db`goals
      ensures db.Valid()
      ensures r.Failed? <==> goalId !in old(db.goals)
      ensures r.Failed? ==> r.error == NotFound(GoalEntity, goalId)
      ensures r.Failed? ==> db.goals == old(db.goals)
      ensures r.Done? ==> db.goals == old(db.goals)[goalId := old(db.goals)[goalId].AddAmount(amount)]
      ensures r.Done? ==> && db.goals[goalId].currentAmount == old(db.goals)[goalId].currentAmount + amount
                          && db.goals[goalId].title == old(db.goals)[goalId].title
                          && db.goals[goalId].targetAmount == old(db.goals)[goalId].targetAmount
    {
      var found := db.FindGoalById(goalId);
      if found.None? {
        return Failed(NotFound(GoalEntity, goalId));
      }
      var saved := db.SaveGoal(found.value.AddAmount(amount));
      r := Done;
    }

    /** Replaces title and target of a stored goal; the progress is kept. */
    method UpdateGoal(goalId: int, newTitle: string, newTargetAmount: real) returns (r: Outcome)
      requires db.Valid()
      modifies db`goals
      ensures db.Valid()
      ensures r.Failed? <==> goalId !in old(db.goals)
      ensures r.Failed? ==> r.error == NotFound(GoalEntity, goalId)
      ensures r.Failed? ==> db.goals == old(db.goals)
      ensures r.Done? ==> db.goals == old(db.goals)[goalId :=
                old(db.goals)[goalId].WithTitle(newTitle).WithTargetAmount(newTargetAmount)]
      ensures r.Done? ==> db.goals[goalId].currentAmount == old(db.goals)[goalId].currentAmount
    {
      var found := db.FindGoalById(goalId);
      if found.None? {
        return Failed(NotFound(GoalEntity, goalId));
      }
      var saved := db.SaveGoal(found.value.WithTitle(newTitle).WithTargetAmount(newTargetAmount));
      r := Done;
    }

    /** Removes the goal if present; never fails. */
    method DeleteGoal(goalId: int)
      requires db.Valid()
      modifies db`goals
      ensures db.Valid()
      ensures db.goals == old(db.goals) - {goalId}
      ensures goalId !in old(db.goals) ==> db.goals == old(db.goals)
    {
      db.DeleteGoal(goalId);
    }

    /** The stored goals whose owner is `userId`. */
    function GetUserGoals(userId: int): (r: set<Goal>)
      reads db
      requires db.Valid()
      ensures forall g :: g in r <==> g.id in db.goals && db.goals[g.id] == g && g.userId == userId
    {
      GoalsOwnedBy(db.FindAllGoals(), userId)
    }
  }
}
