/** From request to ledger across replicas: what the gateways of one database can spend together. */
module Fleet {
  import opened Hierarchy
  import opened Tables
  import opened Changes
  import opened Budgets
  import opened Outcomes
  import opened Replicas
  import opened Races
  import opened Metering
  import Ledger
  import P = Pricing

  /**
   * The steps of recorders for enforced principals: every reservation is sized for its job and every charge metered.
   * A hold that a settlement found pending may be released or expire before the charge commits; it is then overtaken.
   */
  ghost predicate GatedStepOf(jobs: map<Id, Job>, overtaken: set<Id>, a: System, step: Step) {
    && (step.CommitReserve? && step.p in a.phases && a.phases[step.p].Ready? ==>
          var ph := a.phases[step.p]; ph.enforce && Sized(jobs, ph.r.id, ph.r.amount))
    && (step.CommitSettle? && step.p in a.phases && a.phases[step.p].Settling? ==>
          var ph := a.phases[step.p];
          && ph.i < |a.db.holds| && var hold := a.db.holds[ph.i];
          && (hold.id in jobs ==> Metered(jobs[hold.id], ph.e.cost))
          && (hold.status == Pending || !ph.foundPending || hold.id in overtaken))
    && !(step.Single? && step.c.Appending?)
  }

  lemma ReserveStepAccounted(digest: string -> string, a: System, p: Replica, b: System, acc: Account)
    requires SystemOk(digest, a) && Integrity(a.db) && Next(digest, a, CommitReserve(p), b) && Accounted(a.db, acc)
    requires GatedStepOf(acc.jobs, acc.overtaken, a, CommitReserve(p))
    ensures Accounted(b.db, acc)
  {
    hide Integrity, Safe, PhasesOk, Accounted, Sized;
    if b.db != a.db {
      ReserveAccounted(a.db, HoldOf(a.phases[p].r), acc);
    }
  }

  lemma SettleStepAccounted(digest: string -> string, a: System, p: Replica, now: Ledger.Time, b: System, acc: Account)
    requires SystemOk(digest, a) && Integrity(a.db) && Next(digest, a, CommitSettle(p, now), b) && Accounted(a.db, acc)
    requires GatedStepOf(acc.jobs, acc.overtaken, a, CommitSettle(p, now))
    ensures Accounted(b.db, acc)
  {
    hide Integrity, Safe, PhasesOk, Forest, Appendable, RowFor, Charge, WellPriced, P.HoldAmount, Metered, WaivedWithin,
      Ledger.InRange;
    SafeIsForest(digest, a.db);
    PhaseHolds(a, p);
    var ph := a.phases[p];
    SealedCost(digest, a.db, ph.e, now);
    ChargeAccounted(a.db, ph.i, RowFor(digest, a.db, ph.e, now), ph.foundPending, acc);
  }

  lemma SingleStepAccounted(digest: string -> string, a: System, step: Step, b: System, acc: Account)
    requires Integrity(a.db) && Next(digest, a, step, b) && Accounted(a.db, acc)
    requires !step.CommitReserve? && !step.CommitSettle? && !(step.Single? && step.c.Appending?)
    ensures Accounted(b.db, acc)
  {
    hide Integrity, Accounted, LeaseOwned, LeaseFault, ShortNow, LeaseShort, Nodes, Ledger.InRange;
    if step.Single? {
      SingleChargesNothing(digest, a.db, step.c);
      RestAccounted(a.db, b.db, acc);
    }
  }

  lemma SingleChargesNothing(digest: string -> string, s: State, c: Change)
    requires Integrity(s) && Enabled(digest, s, c) && !c.NewHold? && !c.Charging? && !c.Appending?
    ensures CanApply(s, c) && ChargesAlike(s, Apply(s, c))
  {
    hide Integrity, ChainActive, RoomOnChain, LeaseRoom, Sealed;
    forall k | 0 <= k < |s.holds| && s.holds[k].id in s.settlements
      ensures s.holds[k].status != Pending
    {
      LinkedIsClosed(s, k);
    }
  }

  lemma StepAccounted(digest: string -> string, a: System, step: Step, b: System, acc: Account)
    requires SystemOk(digest, a) && Integrity(a.db) && Next(digest, a, step, b) && Accounted(a.db, acc)
    requires GatedStepOf(acc.jobs, acc.overtaken, a, step)
    ensures Accounted(b.db, acc)
  {
    hide Integrity, SystemOk, Next, Accounted;
    match step {
      case CommitReserve(p) => ReserveStepAccounted(digest, a, p, b, acc);
      case CommitSettle(p, now) => SettleStepAccounted(digest, a, p, now, b, acc);
      case _ => SingleStepAccounted(digest, a, step, b, acc);
    }
  }

  lemma {:induction false} GatedExecution(digest: string -> string, steps: seq<Step>, run: seq<System>, i: nat,
                                          acc: Account)
    requires Execution(digest, steps, run) && i < |run|
    requires forall k :: 0 <= k < i ==> GatedStepOf(acc.jobs, acc.overtaken, run[k], steps[k])
    ensures Accounted(run[i].db, acc)
  {
    hide Integrity, SystemOk, Next, GatedStepOf, WellPriced, P.HoldAmount;
    if i > 0 {
      GatedExecution(digest, steps, run, i - 1, acc);
      ExecutionIsOk(digest, steps, run, i - 1);
      StepAccounted(digest, run[i - 1], steps[i - 1], run[i], acc);
    }
  }

  /**
   * At every instant of every interleaving of such replicas a budgeted run's subtree has spent and holds at most the
   * budget, for every hold charged in it two nanodollars and the overage of its job, and the charges that came after
   * their holds had expired or been overtaken.
   */
  lemma BudgetHoldsToRoundingAcrossReplicas(
      digest: string -> string, jobs: map<Id, Job>, overtaken: set<Id>, steps: seq<Step>, run: seq<System>, i: nat,
      id: Id)
    requires Execution(digest, steps, run) && i < |run|
    requires forall k :: 0 <= k < i ==> GatedStepOf(jobs, overtaken, run[k], steps[k])
    requires id in run[i].db.runs && run[i].db.runs[id].budget > 0
    ensures BudgetKept(run[i].db, jobs, overtaken, id)
  {
    hide Execution, GatedStepOf, BudgetKept, Accounted;
    BudgetsHoldAcrossReplicas(digest, steps, run, i, id);
    GatedExecution(digest, steps, run, i, Account(jobs, overtaken, InTree(Subtree(run[i].db.runs, id))));
    BudgetFromAccount(run[i].db, jobs, overtaken, id);
  }

  /** The same for a lease and its ceiling. */
  lemma CeilingHoldsToRoundingAcrossReplicas(
      digest: string -> string, jobs: map<Id, Job>, overtaken: set<Id>, steps: seq<Step>, run: seq<System>, i: nat,
      lease: Id)
    requires Execution(digest, steps, run) && i < |run|
    requires forall k :: 0 <= k < i ==> GatedStepOf(jobs, overtaken, run[k], steps[k])
    requires lease in run[i].db.leases && run[i].db.leases[lease].ceiling > 0
    ensures CeilingKept(run[i].db, jobs, overtaken, lease)
  {
    hide Execution, GatedStepOf, CeilingKept, Accounted;
    LeaseCeilingsHoldAcrossReplicas(digest, steps, run, i, lease);
    GatedExecution(digest, steps, run, i, Account(jobs, overtaken, OnLease(lease)));
    CeilingFromAccount(run[i].db, jobs, overtaken, lease);
  }
}
