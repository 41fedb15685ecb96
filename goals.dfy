/** The savings-goal entity with its mutators and its derived completion state. */
module Goals {

  /** A savings goal. `id` and `userId` are fixed at construction. */
  datatype Goal = Goal(id: int, userId: int, title: string, targetAmount: real, currentAmount: real)
  {
    /** The goal with a new title (the title setter). */
    function WithTitle(newTitle: string): Goal
    {
      this.(title := newTitle)
    }

    /** The goal with a new target (the target setter). */
    function WithTargetAmount(newTarget: real): Goal
    {
      this.(targetAmount := newTarget)
    }

    /** The goal with its progress overwritten (the progress setter). */
    function WithCurrentAmount(newCurrent: real): Goal
    {
      this.(currentAmount := newCurrent)
    }

    /** The goal with `amount` added to its progress; the sign is not checked. */
    function AddAmount(amount: real): Goal
    {
      this.(currentAmount := currentAmount + amount)
    }

    /** Completion is derived on every read, never stored. */
    predicate IsCompleted()
    {
      currentAmount >= targetAmount
    }
  }

  /** Adding moves the progress by exactly `amount` and leaves every other field as it was. */
  lemma AddAmountShiftsProgress(g: Goal, amount: real)
    ensures g.AddAmount(amount).currentAmount - g.currentAmount == amount
    ensures g.AddAmount(amount).WithCurrentAmount(g.currentAmount) == g
  {
  }

  /** Two additions are one addition of their sum, whatever their signs. */
  lemma AddAmountIsAdditive(g: Goal, a: real, b: real)
    ensures g.AddAmount(a).AddAmount(b) == g.AddAmount(a + b)
    ensures g.AddAmount(a).AddAmount(-a) == g
  {
  }

  /** Each setter changes its own field and nothing else: putting the old value
      back gives the original goal. */
  lemma SettersAreLocal(g: Goal, title: string, target: real, current: real)
    ensures g.WithTitle(title).title == title && g.WithTitle(title).WithTitle(g.title) == g
    ensures g.WithTargetAmount(target).targetAmount == target
    ensures g.WithTargetAmount(target).WithTargetAmount(g.targetAmount) == g
    ensures g.WithCurrentAmount(current).currentAmount == current
    ensures g.WithCurrentAmount(current).WithCurrentAmount(g.currentAmount) == g
  {
  }

  /** No mutator touches the identity or the owner of a goal. */
  lemma IdentityIsFixed(g: Goal, title: string, target: real, current: real, amount: real)
    ensures g.WithTitle(title).id == g.id && g.WithTitle(title).userId == g.userId
    ensures g.WithTargetAmount(target).id == g.id && g.WithTargetAmount(target).userId == g.userId
    ensures g.WithCurrentAmount(current).id == g.id && g.WithCurrentAmount(current).userId == g.userId
    ensures g.AddAmount(amount).id == g.id && g.AddAmount(amount).userId == g.userId
  {
  }

  /** Completion is recomputed from the current fields: raising the target or
      adding a negative amount can make a completed goal incomplete again. */
  lemma CompletionIsRecomputed(g: Goal, target: real, amount: real)
    ensures g.WithTargetAmount(target).IsCompleted() <==> g.currentAmount >= target
    ensures g.AddAmount(amount).IsCompleted() <==> g.currentAmount + amount >= g.targetAmount
    ensures g.IsCompleted() && amount < g.targetAmount - g.currentAmount ==> !g.AddAmount(amount).IsCompleted()
    ensures g.IsCompleted() && target > g.currentAmount ==> !g.WithTargetAmount(target).IsCompleted()
  {
  }
}
