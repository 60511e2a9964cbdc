/** From request to ledger: what a history of the gateway's calls can spend. */
module Metering {
  import opened Wrappers
  import opened Sums
  import opened Hierarchy
  import opened Tables
  import opened Changes
  import opened Outcomes
  import opened Histories
  import opened Gateway
  import opened Int64
  import opened WorstCase
  import Ledger
  import P = Pricing
  import C = PriceConditions

  /** What one reservation was made for: a request, the price it was held at and the one it will be charged at. */
  datatype Job = Job(held: P.Price, charged: P.Price, q: P.Request, reported: bool) {
    /** The most prompt-side tokens the charge may count: what was reserved, or what is estimated of the prompt. */
    function InputCeiling(): int {
      if reported then P.ReservationInputTokens(q.requestBytes) else P.EstimateFromChars(q.promptChars)
    }

    /** An estimate charges for output even if none was reserved. */
    function OutputCeiling(): int {
      if reported then P.ReservedCounts(held, q).output else P.ReservationTokens(q.maxTokens, charged)
    }

    predicate CountsFit() {
      0 <= InputCeiling() && Fits(InputCeiling()) && 0 <= OutputCeiling()
    }
  }

  function WorstCost(job: Job): nat
    requires job.CountsFit()
  {
    Worst(job.charged, job.InputCeiling(), job.OutputCeiling())
  }

  /** The hold and the dearest charge are int64s. */
  predicate WellPriced(job: Job) {
    && P.PriceFits(job.held) && P.PriceFits(job.charged) && P.HoldFits(job.held, job.q)
    && job.CountsFit() && Fits(WorstCost(job) + 2)
  }

  /** What the dearest charge exceeds the hold by. */
  function Overage(job: Job): nat
    requires job.CountsFit()
  {
    var hold := P.HoldAmount(job.held, job.q);
    if WorstCost(job) > hold then WorstCost(job) - hold else 0
  }

  /** The cost of counts reported within the job's ceiling, or of its own estimate. */
  ghost predicate Metered(job: Job, cost: int) {
    if job.reported then
      exists u :: P.WithinCeiling(job.held, job.q, u) && cost == P.Cost(job.charged, u)
    else
      exists complete: bool :: cost == P.Cost(job.charged, P.EstimatedCounts(job.charged, job.q, complete))
  }

  /** At any prices a job is charged at most its overage and two nanodollars more than was held for it. */
  lemma MeteredCost(job: Job, cost: int)
    requires WellPriced(job) && Metered(job, cost)
    ensures 0 <= cost <= P.HoldAmount(job.held, job.q) + Overage(job) + 2
  {
    hide P.PriceFits, P.HoldFits, P.Cost, P.HoldAmount, P.ReservationInputTokens, P.EstimateFromChars,
      P.ReservationTokens, Worst;
    if job.reported {
      var u :| P.WithinCeiling(job.held, job.q, u) && cost == P.Cost(job.charged, u);
      WorstInInt64(job.charged, u, job.InputCeiling(), job.OutputCeiling());
    } else {
      var complete: bool :| cost == P.Cost(job.charged, P.EstimatedCounts(job.charged, job.q, complete));
      var u := P.EstimatedCounts(job.charged, job.q, complete);
      WorstInInt64(job.charged, u, job.InputCeiling(), job.OutputCeiling());
    }
  }

  /** Usage is reported; or output was reserved for the estimate, and the prompt is no longer than its body. */
  predicate Estimable(job: Job) {
    || job.reported
    || (!job.q.noOutput && P.PromptInBody(job.q)
        && P.ReservationTokens(job.q.maxTokens, job.charged) <= P.ReservationTokens(job.q.maxTokens, job.held))
  }

  /** Where the held price covers the charged one there is no overage. */
  lemma CoveredOwesNothing(job: Job)
    requires WellPriced(job) && Estimable(job) && P.LongIsDearer(job.held) && C.Covers(job.held, job.charged)
    ensures Overage(job) == 0
  {
    hide P.ExactRate, DearestCost, C.Covers, P.LongIsDearer, P.Cost, P.PriceFits, P.ReservationTokens,
      P.EstimateFromChars, P.ExactCost;
    var reserved := P.ReservedCounts(job.held, job.q);
    var ceiling, output := job.InputCeiling(), job.OutputCeiling();
    if !job.reported {
      P.EstimateIsSmall(job.q);
    }
    C.CoveredWorst(job.held, job.charged, ceiling, output, reserved);
    P.CostIsExact(job.held, reserved);
  }

  /** What Record charges for a job is metered, provided the vendor reports within the ceiling. */
  lemma RecordedIsMetered(job: Job, obs: Observation, found: Lookup, now: Ledger.Time)
    requires obs.request == job.q && found.price == job.charged && obs.usageReported == job.reported
    requires job.reported ==> P.WithinCeiling(job.held, job.q, obs.usage)
    ensures Metered(job, EntryOf(obs, found, now).cost)
  {
    hide P.WithinCeiling, P.Cost, P.EstimatedCounts;
    if !obs.usageReported {
      assert EntryOf(obs, found, now).cost == P.Cost(job.charged, P.EstimatedCounts(job.charged, job.q, obs.complete));
    }
  }

  /** A hold sized for its job. */
  predicate Sized(jobs: map<Id, Job>, id: Id, amount: int) {
    id in jobs && WellPriced(jobs[id]) && amount == P.HoldAmount(jobs[id].held, jobs[id].q)
  }

  ghost predicate HoldsSized(jobs: map<Id, Job>, holds: seq<Hold>) {
    forall i :: 0 <= i < |holds| ==> Sized(jobs, holds[i].id, holds[i].amount)
  }

  // What may be spent past a budget or a ceiling

  /** A choice of rows by their run or their lease. */
  datatype Choice = InTree(tree: set<Id>) | OnLease(lease: Id) {
    predicate Includes(run: Id, l: Option<Id>) {
      if InTree? then run in tree else l == Some(lease)
    }
  }

  /** The chosen rows, the jobs behind the holds, and the holds that were resolved while their charge was under way. */
  datatype Account = Account(jobs: map<Id, Job>, overtaken: set<Id>, who: Choice) {
    function Owed(id: Id): nat {
      if id in jobs && jobs[id].CountsFit() then Overage(jobs[id]) else 0
    }
  }

  function Waivers(who: Choice): Waiver -> nat {
    (w: Waiver) => if who.Includes(w.run, w.lease) then w.amount else 0
  }

  /**
   * For a charged hold its job's overage and two nanodollars; and the whole of the charge, if by then the hold had
   * expired or been overtaken.
   */
  function Allowance(acc: Account, settlements: map<Id, nat>, ledger: seq<Ledger.Row>): Hold -> nat {
    (hold: Hold) =>
      if acc.who.Includes(hold.run, hold.lease) && hold.id in settlements then
        acc.Owed(hold.id) + 2
        + (if hold.status == Expired || hold.id in acc.overtaken then LinkedCost(settlements, ledger, hold.id) else 0)
      else 0
  }

  ghost predicate WaivedWithin(s: State, acc: Account) {
    Total(s.waivers, Waivers(acc.who)) <= Total(s.holds, Allowance(acc, s.settlements, s.ledger))
  }

  lemma LinkedIsClosed(s: State, k: nat)
    requires Integrity(s) && k < |s.holds| && s.holds[k].id in s.settlements
    ensures s.holds[k].status != Pending && 0 < s.settlements[s.holds[k].id] <= |s.ledger|
  {
    hide Forest, UniqueHolds, HoldsReferTo;
    assert LinkOk(s, k);
  }

  /** t differs from s in no charge, and in no hold but for the status of one not charged. */
  ghost predicate ChargesAlike(s: State, t: State) {
    && t.settlements == s.settlements && t.ledger == s.ledger && t.waivers == s.waivers && |t.holds| == |s.holds|
    && forall k :: 0 <= k < |s.holds| ==>
      && t.holds[k] == s.holds[k].(status := t.holds[k].status)
      && (s.holds[k].id in s.settlements ==> t.holds[k].status == s.holds[k].status)
  }

  lemma AllowanceDependsOnCharged(s: State, t: State, acc: Account)
    requires ChargesAlike(s, t) && WaivedWithin(s, acc)
    ensures WaivedWithin(t, acc)
  {
    hide LinkedCost;
    var f := Allowance(acc, s.settlements, s.ledger);
    TotalCongruent(s.holds, f, t.holds, f);
  }

  lemma HoldIsAllowedNothing(s: State, hold: Hold, acc: Account)
    requires WaivedWithin(s, acc)
    ensures WaivedWithin(InsertHold(s, hold, true), acc)
  {
    TotalOfAppend(s.holds, hold, Allowance(acc, s.settlements, s.ledger));
  }

  lemma OthersAllowedAlike(s: State, i: nat, row: Ledger.Row, acc: Account, k: nat)
    requires Integrity(s) && i < |s.holds| && k < |s.holds| && k != i
    ensures var settlements, ledger := s.settlements[s.holds[i].id := |s.ledger| + 1], s.ledger + [row];
      Allowance(acc, settlements, ledger)(s.holds[k]) == Allowance(acc, s.settlements, s.ledger)(s.holds[k])
  {
    hide Forest, HoldsReferTo, LinksOk, WorstCost, Overage;
    if s.holds[k].id in s.settlements {
      LinkedIsClosed(s, k);
    }
  }

  /** Charging hold i within its amount, what its job owes, and two; in time, late, or overtaken. */
  ghost predicate ChargeAgreed(s: State, i: nat, cost: nat, resolve: bool, acc: Account) {
    && i < |s.holds| && s.holds[i].id !in s.settlements
    && cost <= s.holds[i].amount + acc.Owed(s.holds[i].id) + 2
    && (s.holds[i].status == Pending ==> resolve) && (resolve || s.holds[i].status == Expired)
    && (s.holds[i].status == Pending || !resolve || s.holds[i].id in acc.overtaken)
  }

  /** The charged hold was allowed nothing and is now allowed what its charge waives. */
  lemma OwnAllowance(s: State, i: nat, row: Ledger.Row, resolve: bool, acc: Account)
    requires ChargeAgreed(s, i, row.cost, resolve, acc)
    ensures var hold := s.holds[i];
      var settlements, ledger := s.settlements[hold.id := |s.ledger| + 1], s.ledger + [row];
      var charged := if resolve then hold.(status := Settled) else hold;
      && Allowance(acc, s.settlements, s.ledger)(hold) == 0
      && Waivers(acc.who)(Waiver(hold.run, hold.lease, Overrun(hold, row.cost)))
           <= Allowance(acc, settlements, ledger)(charged)
  {
    hide WorstCost, Overage;
  }

  lemma ChargeIsAllowed(s: State, i: nat, row: Ledger.Row, resolve: bool, acc: Account)
    requires Integrity(s) && ChargeAgreed(s, i, row.cost, resolve, acc) && WaivedWithin(s, acc)
    ensures WaivedWithin(Charge(s, i, row, resolve), acc)
  {
    hide Integrity, Charge, Allowance, Waivers, Overrun;
    var hold := s.holds[i];
    ChargeParts(s, i, row, resolve);
    var t := Charge(s, i, row, resolve);
    var before, after := Allowance(acc, s.settlements, s.ledger), Allowance(acc, t.settlements, t.ledger);
    forall k | 0 <= k < |s.holds| && k != i
      ensures before(s.holds[k]) == after(t.holds[k])
    {
      OthersAllowedAlike(s, i, row, acc, k);
    }
    OneRowDiffers(s.holds, t.holds, i, before, after);
    OwnAllowance(s, i, row, resolve, acc);
    TotalOfAppend(s.waivers, Waiver(hold.run, hold.lease, Overrun(hold, row.cost)), Waivers(acc.who));
  }

  /** Two weights that agree on every row but one differ in their totals by that row. */
  lemma OneRowDiffers(a: seq<Hold>, b: seq<Hold>, i: nat, f: Hold -> nat, g: Hold -> nat)
    requires |a| == |b| && i < |a|
    requires forall k :: 0 <= k < |a| && k != i ==> f(a[k]) == g(b[k])
    ensures Total(b, g) + f(a[i]) == Total(a, f) + g(b[i])
  {
    assert a == a[..i] + [a[i]] + a[i + 1..] && b == b[..i] + [b[i]] + b[i + 1..];
    TotalOfConcat(a[..i] + [a[i]], a[i + 1..], f);
    TotalOfConcat(b[..i] + [b[i]], b[i + 1..], g);
    TotalOfAppend(a[..i], a[i], f);
    TotalOfAppend(b[..i], b[i], g);
    TotalCongruent(a[..i], f, b[..i], g);
    TotalCongruent(a[i + 1..], f, b[i + 1..], g);
  }

  // What the gateway does to the tables

  ghost predicate Accounted(s: State, acc: Account) {
    HoldsSized(acc.jobs, s.holds) && WaivedWithin(s, acc)
  }

  lemma ReserveAccounted(s: State, hold: Hold, acc: Account)
    requires Accounted(s, acc) && Sized(acc.jobs, hold.id, hold.amount)
    ensures Accounted(InsertHold(s, hold, true), acc)
  {
    hide P.HoldAmount, WellPriced, WaivedWithin;
    HoldIsAllowedNothing(s, hold, acc);
  }

  lemma ChargeAccounted(s: State, i: nat, row: Ledger.Row, resolve: bool, acc: Account)
    requires Integrity(s) && Accounted(s, acc) && i < |s.holds| && s.holds[i].id !in s.settlements
    requires (s.holds[i].status == Pending ==> resolve) && (resolve || s.holds[i].status == Expired)
    requires s.holds[i].status == Pending || !resolve || s.holds[i].id in acc.overtaken
    requires s.holds[i].id in acc.jobs && Metered(acc.jobs[s.holds[i].id], row.cost)
    ensures Accounted(Charge(s, i, row, resolve), acc)
  {
    hide Integrity, Charge, Metered, P.HoldAmount, WaivedWithin, P.PriceFits, P.HoldFits, WorstCost;
    ChargeParts(s, i, row, resolve);
    MeteredCost(acc.jobs[s.holds[i].id], row.cost);
    ChargeIsAllowed(s, i, row, resolve, acc);
  }

  lemma RestAccounted(s: State, t: State, acc: Account)
    requires Accounted(s, acc) && ChargesAlike(s, t)
    ensures Accounted(t, acc)
  {
    hide P.HoldAmount, WellPriced, WaivedWithin;
    AllowanceDependsOnCharged(s, t, acc);
    forall k | 0 <= k < |t.holds|
      ensures Sized(acc.jobs, t.holds[k].id, t.holds[k].amount)
    {
      assert t.holds[k] == s.holds[k].(status := t.holds[k].status);
    }
  }

  // In one process

  /** The calls the recorder makes for enforced principals: every charge is metered, in time or late. */
  ghost predicate Gated(jobs: map<Id, Job>, s: State, call: Call) {
    && !call.AppendLedger?
    && (call.TryReserve? ==> call.enforce && Sized(jobs, call.r.id, call.r.amount))
    && (call.SettleReservation? && call.id !in s.settlements && Locate(s.holds, call.id).Some? && call.id in jobs ==>
          Metered(jobs[call.id], call.e.cost))
  }

  lemma GatedCharge(digest: string -> string, s: State, call: Call, t: State, acc: Account)
    requires Integrity(s) && Answers(digest, s, call, t) && Gated(acc.jobs, s, call) && Accounted(s, acc)
    requires call.SettleReservation? && t != s
    ensures Accounted(t, acc)
  {
    hide Charge, Integrity, Appendable, SealedEntry, AppendFault, Ledger.Scan, Ledger.InRange, ChargedAt, Locate,
      WellPriced, Metered, P.HoldAmount, Ledger.RowOf, WaivedWithin;
    var res :| Charged(digest, s, call.id, call.e, call.now, res, t);
    var i := Locate(s.holds, call.id).value;
    LocatedId(s.holds, call.id);
    ChargedIs(digest, s, i, call.e, call.now, res, t);
    RowCost(res.value);
    ChargeAccounted(s, i, Ledger.RowOf(res.value), s.holds[i].status == Pending, acc);
  }

  lemma RowCost(e: Ledger.Entry)
    requires 0 <= e.inputTokens && 0 <= e.outputTokens && 0 <= e.cost
    ensures Ledger.RowOf(e).cost == e.cost
  {
  }

  lemma GatedReserve(s: State, r: Request, res: Result<Decision, Error>, t: State, acc: Account)
    requires Integrity(s) && Reserved(s, r, true, res, t) && Accounted(s, acc) && Sized(acc.jobs, r.id, r.amount)
    ensures Accounted(t, acc)
  {
    hide Integrity, Decidable, ReserveFails, RunBlocks, LeaseBlocks, NothingBlocks, Locate, P.HoldAmount, WellPriced,
      WaivedWithin;
    if t != s {
      ReserveAccounted(s, HoldOf(r), acc);
    }
  }

  lemma GatedStep(digest: string -> string, s: State, call: Call, t: State, acc: Account)
    requires Integrity(s) && Answers(digest, s, call, t) && Gated(acc.jobs, s, call) && Accounted(s, acc)
    ensures Accounted(t, acc)
  {
    hide Integrity, Charged, Ledger.InRange, Reserved, Locate, WellPriced, Metered, P.HoldAmount, WaivedWithin,
      HoldsSized;
    if call.SettleReservation? {
      if t != s {
        GatedCharge(digest, s, call, t, acc);
      }
    } else if call.TryReserve? {
      IntegrityIsForest(s);
      var res :| Reserved(s, call.r, call.enforce, res, t);
      GatedReserve(s, call.r, res, t, acc);
    } else {
      forall k | 0 <= k < |s.holds| && s.holds[k].id in s.settlements
        ensures s.holds[k].status != Pending
      {
        LinkedIsClosed(s, k);
      }
      RestAccounted(s, t, acc);
    }
  }

  lemma {:induction false} GatedHistory(digest: string -> string, calls: seq<Call>, states: seq<State>, i: nat,
                                        acc: Account)
    requires History(digest, calls, states) && i < |states|
    requires forall k :: 0 <= k < i ==> Gated(acc.jobs, states[k], calls[k])
    ensures Accounted(states[i], acc)
  {
    hide Integrity, BudgetSafe, LeasesSafe, Answers, Gated, WellPriced, P.HoldAmount;
    if i > 0 {
      GatedHistory(digest, calls, states, i - 1, acc);
      ReachableIsSafe(digest, calls, states, i - 1);
      GatedStep(digest, states[i - 1], calls[i - 1], states[i], acc);
    }
  }

  /** What a budgeted run's subtree has spent and holds is at most its budget and what the account allows there. */
  ghost predicate BudgetKept(s: State, jobs: map<Id, Job>, overtaken: set<Id>, id: Id)
    requires id in s.runs
  {
    && Forest(s.runs)
    && var acc := Account(jobs, overtaken, InTree(Subtree(s.runs, id)));
    Spent(s, id) + Held(s, id) <= s.runs[id].budget + Total(s.holds, Allowance(acc, s.settlements, s.ledger))
  }

  ghost predicate CeilingKept(s: State, jobs: map<Id, Job>, overtaken: set<Id>, lease: Id)
    requires lease in s.leases
  {
    var acc := Account(jobs, overtaken, OnLease(lease));
    LeaseSpent(s, lease) + LeaseHeld(s, lease)
      <= s.leases[lease].ceiling + Total(s.holds, Allowance(acc, s.settlements, s.ledger))
  }

  lemma BudgetFromAccount(s: State, jobs: map<Id, Job>, overtaken: set<Id>, id: Id)
    requires Forest(s.runs) && id in s.runs && Spent(s, id) + Held(s, id) <= s.runs[id].budget + Waived(s, id)
    requires Accounted(s, Account(jobs, overtaken, InTree(Subtree(s.runs, id))))
    ensures BudgetKept(s, jobs, overtaken, id)
  {
    hide Spent, Held, HoldsSized, Subtree;
    var tree := Subtree(s.runs, id);
    TotalCongruent(s.waivers, WaivedBy(tree), s.waivers, Waivers(InTree(tree)));
  }

  lemma CeilingFromAccount(s: State, jobs: map<Id, Job>, overtaken: set<Id>, lease: Id)
    requires lease in s.leases
    requires LeaseSpent(s, lease) + LeaseHeld(s, lease)
      <= s.leases[lease].ceiling + Total(s.waivers, LeaseWaivedBy(lease))
    requires Accounted(s, Account(jobs, overtaken, OnLease(lease)))
    ensures CeilingKept(s, jobs, overtaken, lease)
  {
    hide LeaseSpent, LeaseHeld, HoldsSized;
    TotalCongruent(s.waivers, LeaseWaivedBy(lease), s.waivers, Waivers(OnLease(lease)));
  }

  /**
   * The gateway's promise, from request to ledger: after any history of its calls, a budgeted run's subtree has
   * spent and holds at most the budget, for every hold charged in it two nanodollars and the overage of its job,
   * and the charges that came after their holds had expired.
   */
  lemma BudgetHoldsToRounding(digest: string -> string, jobs: map<Id, Job>, calls: seq<Call>, states: seq<State>,
                              i: nat, id: Id)
    requires History(digest, calls, states) && i < |states|
    requires forall k :: 0 <= k < i ==> Gated(jobs, states[k], calls[k])
    requires id in states[i].runs && states[i].runs[id].budget > 0
    ensures BudgetKept(states[i], jobs, {}, id)
  {
    hide History, Gated, BudgetKept, Accounted;
    BudgetsHold(digest, calls, states, i, id);
    GatedHistory(digest, calls, states, i, Account(jobs, {}, InTree(Subtree(states[i].runs, id))));
    BudgetFromAccount(states[i], jobs, {}, id);
  }

  /** The same for a lease and its ceiling. */
  lemma CeilingHoldsToRounding(digest: string -> string, jobs: map<Id, Job>, calls: seq<Call>, states: seq<State>,
                               i: nat, lease: Id)
    requires History(digest, calls, states) && i < |states|
    requires forall k :: 0 <= k < i ==> Gated(jobs, states[k], calls[k])
    requires lease in states[i].leases && states[i].leases[lease].ceiling > 0
    ensures CeilingKept(states[i], jobs, {}, lease)
  {
    hide History, Gated, CeilingKept, Accounted;
    LeaseCeilingsHold(digest, calls, states, i, lease);
    GatedHistory(digest, calls, states, i, Account(jobs, {}, OnLease(lease)));
    CeilingFromAccount(states[i], jobs, {}, lease);
  }
}
