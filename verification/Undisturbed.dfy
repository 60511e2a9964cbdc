/** A replica that nobody disturbs does what the store's transaction does. */
module Undisturbed {
  import opened Wrappers
  import opened Hierarchy
  import opened Tables
  import opened Changes
  import opened Budgets
  import opened Outcomes
  import opened Replicas
  import opened Races
  import Effects
  import H = Histories
  import Ledger

  lemma StepFirst(digest: string -> string, a: System, step: Step, b: System, steps: seq<Step>, run: seq<System>)
    requires Integrity(a.db) && Next(digest, a, step, b) && Continues(digest, b, steps, run)
    ensures Continues(digest, a, [step] + steps, [a] + run)
  {
    hide Integrity, Next;
  }

  /** The replica has read k levels of the chain. */
  function ReadingAt(a: System, p: Replica, r: Request, enforce: bool, k: nat, wouldBlock: bool): System
    requires Forest(a.db.runs) && r.run in a.db.runs
  {
    a.(phases := a.phases[p := Reading(r, enforce, Nodes(a.db.runs, r.run), k, wouldBlock)])
  }

  ghost predicate ShortFrom(s: State, r: Request, k: nat)
    requires Forest(s.runs) && r.run in s.runs
  {
    exists j :: k <= j < |Chain(s.runs, r.run)| && Short(s, Chain(s.runs, r.run)[j], r.amount)
  }

  lemma ReadsLevel(digest: string -> string, a: System, p: Replica, r: Request, enforce: bool, k: nat, wouldBlock: bool)
    requires Integrity(a.db) && r.run in a.db.runs && ChainDecidable(a.db, r.run) && k < |Chain(a.db.runs, r.run)|
    ensures var short := Short(a.db, Chain(a.db.runs, r.run)[k], r.amount);
      Next(digest, ReadingAt(a, p, r, enforce, k, wouldBlock), ReadLevel(p),
           ReadingAt(a, p, r, enforce, k + 1, wouldBlock || short))
  {
    hide LinksOk, UniqueHolds, HoldsReferTo, Forest, Spent, Held, Chain;
    assert LevelFault(a.db, Chain(a.db.runs, r.run)[k]) == None;
  }

  /** Reading the rest of the chain, the replica finds out whether any level is short. */
  lemma {:induction false} ReadsLevels(digest: string -> string, a: System, p: Replica, r: Request, enforce: bool,
                                       k: nat, wouldBlock: bool) returns (steps: seq<Step>, run: seq<System>)
    requires Integrity(a.db) && r.run in a.db.runs && ChainDecidable(a.db, r.run) && k <= |Chain(a.db.runs, r.run)|
    ensures Continues(digest, ReadingAt(a, p, r, enforce, k, wouldBlock), steps, run)
    ensures run[|steps|]
         == ReadingAt(a, p, r, enforce, |Chain(a.db.runs, r.run)|, wouldBlock || ShortFrom(a.db, r, k))
    ensures forall j :: 0 <= j < |steps| ==> steps[j] == ReadLevel(p)
    decreases |Chain(a.db.runs, r.run)| - k
  {
    hide LinksOk, UniqueHolds, HoldsReferTo, Forest, Chain, Short, LevelFault, Next;
    var at := ReadingAt(a, p, r, enforce, k, wouldBlock);
    if k == |Chain(a.db.runs, r.run)| {
      steps, run := [], [at];
    } else {
      var short := Short(a.db, Chain(a.db.runs, r.run)[k], r.amount);
      ReadsLevel(digest, a, p, r, enforce, k, wouldBlock);
      var more, rest := ReadsLevels(digest, a, p, r, enforce, k + 1, wouldBlock || short);
      StepFirst(digest, at, ReadLevel(p), ReadingAt(a, p, r, enforce, k + 1, wouldBlock || short), more, rest);
      steps, run := [ReadLevel(p)] + more, [at] + rest;
      ShortStep(a.db, r, k);
    }
  }

  lemma ShortStep(s: State, r: Request, k: nat)
    requires Forest(s.runs) && r.run in s.runs && k < |Chain(s.runs, r.run)|
    ensures ShortFrom(s, r, k) <==> Short(s, Chain(s.runs, r.run)[k], r.amount) || ShortFrom(s, r, k + 1)
  {
    hide Short, Chain, Forest;
  }

  lemma StepLast(digest: string -> string, a: System, steps: seq<Step>, run: seq<System>, step: Step, b: System)
    requires Continues(digest, a, steps, run) && Integrity(run[|steps|].db) && Next(digest, run[|steps|], step, b)
    ensures Continues(digest, a, steps + [step], run + [b])
  {
    hide Integrity, Next;
  }

  /** The replica holds its budget lock, and has read nothing yet. */
  function LockedAt(a: System, p: Replica, r: Request, enforce: bool): System
    requires r.run in a.db.runs
  {
    a.(budgetLocks := a.budgetLocks[a.db.runs[r.run].principal := p], phases := a.phases[p := Locked(r, enforce)])
  }

  function ReadyAt(a: System, p: Replica, r: Request, enforce: bool, wouldBlock: bool): System {
    a.(phases := a.phases[p := Ready(r, enforce, wouldBlock)])
  }

  lemma Begins(digest: string -> string, a: System, p: Replica, r: Request, enforce: bool)
    requires Integrity(a.db) && p !in a.phases && r.status == Pending && r.run in a.db.runs
    requires BudgetFree(a, r.run) && LeaseOwned(a.db, r)
    ensures var b := LockedAt(a, p, r, enforce);
      Next(digest, a, Begin(p, r, enforce), b) && Next(digest, b, ReadChain(p), ReadingAt(b, p, r, enforce, 0, false))
  {
    hide LinksOk, UniqueHolds, HoldsReferTo, Forest, LeaseOwned;
  }

  lemma ReadsLease(digest: string -> string, a: System, p: Replica, r: Request, enforce: bool, short: bool)
    requires Integrity(a.db) && r.run in a.db.runs && (r.lease.Some? ==> r.lease.value in a.db.leases)
    requires !LeaseFault(a.db, r.lease)
    ensures Next(digest, ReadingAt(a, p, r, enforce, |Chain(a.db.runs, r.run)|, short), ReadLease(p),
                 ReadyAt(a, p, r, enforce, short || LeaseShort(a.db, r.lease, r.amount)))
  {
    hide LinksOk, UniqueHolds, HoldsReferTo, Forest, Chain, LeaseFault, LeaseShort;
  }

  lemma Commits(digest: string -> string, a: System, p: Replica, r: Request, enforce: bool, d: Decision, t: State)
    requires Integrity(a.db) && Reserved(a.db, r, enforce, Ok(d), t)
    ensures var ready := ReadyAt(a, p, r, enforce, d.wouldBlock);
      Next(digest, ready, CommitReserve(p), Finish(ready, p, t))
  {
    hide Integrity, Decidable, Insertable, InsertHold, Decided;
    ReservedIs(a.db, r, enforce, d, t);
    AllowedBy(a.db, r, enforce, d);
  }

  lemma AllowedBy(s: State, r: Request, enforce: bool, d: Decision)
    requires Forest(s.runs) && r.run in s.runs && (r.lease.Some? ==> r.lease.value in s.leases)
      && Decided(s, r, enforce, d)
    ensures d.allowed == (!enforce || !d.wouldBlock)
  {
  }

  /**
   * Of a decision that TryReserve reaches, there is a run of steps of one replica, nobody else's between them, that
   * commits the same tables. So the replicas' reads are the transaction's, taken apart.
   */
  lemma ReservesAlone(digest: string -> string, a: System, p: Replica, r: Request, enforce: bool, d: Decision, t: State)
      returns (steps: seq<Step>, run: seq<System>)
    requires Integrity(a.db) && p !in a.phases && BudgetFree(a, r.run) && LeaseOwned(a.db, r)
    requires Reserved(a.db, r, enforce, Ok(d), t)
    ensures Continues(digest, a, steps, run) && run[|steps|].db == t && run[|steps|].phases == a.phases
    ensures forall k :: 0 <= k < |steps| ==> StepOf(steps[k], p)
  {
    hide Integrity, Next, ReadingAt, Reserved, LeaseOwned, Decided, ShortFrom, LeaseShort, LeaseFault, ChainDecidable,
      NoneShort, BudgetFree;
    ReservedIs(a.db, r, enforce, d, t);
    var b := LockedAt(a, p, r, enforce);
    Begins(digest, a, p, r, enforce);
    var levels, seen := ReadsLevels(digest, b, p, r, enforce, 0, false);
    Effects.BlockedIsShort(a.db, r, enforce, d);
    AnyShort(a.db, r);
    ReadsLease(digest, b, p, r, enforce, ShortFrom(a.db, r, 0));
    Commits(digest, b, p, r, enforce, d, t);
    var ready := ReadyAt(b, p, r, enforce, d.wouldBlock);
    var start := ReadingAt(b, p, r, enforce, 0, false);
    ReadingKeepsTables(b, p, r, enforce);
    StepLast(digest, start, levels, seen, ReadLease(p), ready);
    StepLast(digest, start, levels + [ReadLease(p)], seen + [ready], CommitReserve(p), Finish(ready, p, t));
    steps, run := levels + [ReadLease(p)] + [CommitReserve(p)], seen + [ready] + [Finish(ready, p, t)];
    StepFirst(digest, b, ReadChain(p), start, steps, run);
    steps, run := [ReadChain(p)] + steps, [b] + run;
    StepFirst(digest, a, Begin(p, r, enforce), b, steps, run);
    steps, run := [Begin(p, r, enforce)] + steps, [a] + run;
  }

  lemma AnyShort(s: State, r: Request)
    requires Forest(s.runs) && r.run in s.runs
    ensures ShortFrom(s, r, 0) <==> !NoneShort(s, r)
  {
    hide Short, Chain;
  }

  predicate StepOf(step: Step, p: Replica) {
    !step.Single? && step.p == p
  }

  lemma ReservedIs(s: State, r: Request, enforce: bool, d: Decision, t: State)
    requires Integrity(s) && Reserved(s, r, enforce, Ok(d), t)
    ensures Forest(s.runs) && r.status == Pending && r.run in s.runs && ChainDecidable(s, r.run)
    ensures (r.lease.Some? ==> r.lease.value in s.leases) && !LeaseFault(s, r.lease) && Decided(s, r, enforce, d)
  {
    hide LinksOk, Forest, Decided, ChainDecidable, InsertHold, LeaseFault;
  }

  lemma ReadingKeepsTables(a: System, p: Replica, r: Request, enforce: bool)
    requires Forest(a.db.runs) && r.run in a.db.runs
    ensures forall k: nat, wouldBlock: bool :: ReadingAt(a, p, r, enforce, k, wouldBlock).db == a.db
  {
  }

  /** And a charge that SettleReservation makes takes two steps of one replica. */
  lemma SettlesAlone(digest: string -> string, a: System, p: Replica, i: nat, e: Ledger.Entry, now: Ledger.Time,
                     sealed: Ledger.Entry, t: State) returns (steps: seq<Step>, run: seq<System>)
    requires Integrity(a.db) && p !in a.phases && a.ledgerLock == None && Ledger.InRange(e)
    requires i < |a.db.holds| && a.db.holds[i].id !in a.db.settlements && e.run == a.db.holds[i].run
    requires a.db.holds[i].status in {Pending, Expired} && ChargedAt(digest, a.db, i, e, now, Ok(sealed), t)
    ensures Continues(digest, a, steps, run) && run[|steps|].db == t && run[|steps|].phases == a.phases
    ensures forall k :: 0 <= k < |steps| ==> StepOf(steps[k], p)
  {
    hide Integrity, Appendable, Charge, Ledger.InRange, SealedEntry, Ledger.RowOf;
    var b := a.(ledgerLock := Some(p), phases := a.phases[p := Settling(i, e, a.db.holds[i].status == Pending)]);
    var c := Finish(b, p, t);
    assert Next(digest, a, BeginSettle(p, i, e), b) && Next(digest, b, CommitSettle(p, now), c);
    steps, run := [BeginSettle(p, i, e), CommitSettle(p, now)], [a, b, c];
  }

  /** Every other call is one step, where no lock is held. */
  lemma OthersAlone(digest: string -> string, a: System, call: H.Call, t: State) returns (c: Change)
    requires Integrity(a.db) && a.budgetLocks == map[] && a.ledgerLock == None
    requires H.Answers(digest, a.db, call, t) && !call.TryReserve? && !call.SettleReservation? && t != a.db
    ensures Next(digest, a, Single(c), a.(db := t))
  {
    hide LinksOk, UniqueHolds, HoldsReferTo, Forest, Appendable, AppendFault, SealedEntry, AppendUnreserved,
      Ledger.RowOf,
      Ledger.InRange, Sweep, Sealed, Chain, Locate;
    match call {
      case CreateRun(id, principal, parent, budget, status) =>
        c := NewRun(id, Run(principal, parent, budget, status, |a.db.runs|));
      case CloseRun(id) => c := Closing(id);
      case CreateLease(id, run, tokenHash, ceiling) => c := NewLease(id, Lease(run, tokenHash, ceiling));
      case ResolveReservation(id, to) => c := Resolution(Locate(a.db.holds, id).value, to);
      case ExpirePending(at) => c := Sweeping(at);
      case AppendLedger(e, now) => c := AppendsAlone(digest, a, e, now, t);
    }
  }

  lemma AppendsAlone(digest: string -> string, a: System, e: Ledger.Entry, now: Ledger.Time,
                     t: State) returns (c: Change)
    requires Integrity(a.db) && a.ledgerLock == None && t != a.db
    requires H.Answers(digest, a.db, H.AppendLedger(e, now), t)
    ensures c.Appending? && Enabled(digest, a.db, c) && t == Apply(a.db, c)
  {
    hide Integrity, Appendable, AppendFault, SealedEntry, AppendUnreserved, Ledger.RowOf, Ledger.InRange, Sealed;
    var res :| Appended(digest, a.db, e, now, res, t);
    AppendEnabled(digest, a.db, e, now);
    c := Appending(Ledger.RowOf(res.value));
  }
}
