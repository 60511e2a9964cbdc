/**
 * Many gateway replicas on one PostgreSQL database. A reservation takes its principal's budget lock, reads
 * the chain, then each level's usage, then the lease, each in a statement of its own, and commits; settlements
 * take only the ledger lock, and releases and sweeps take no lock, so they commit between those reads.
 */
module Replicas {
  import opened Wrappers
  import opened Sums
  import opened Hierarchy
  import opened Tables
  import opened Changes
  import opened Budgets
  import opened Outcomes
  import Ledger

  type Replica = nat

  /** One row of the chain query. */
  datatype Node = Node(id: Id, budget: nat, status: RunStatus)

  /** Where a replica's open transaction stands. */
  datatype Phase =
    | Locked(r: Request, enforce: bool)
    | Reading(r: Request, enforce: bool, chain: seq<Node>, level: nat, wouldBlock: bool)
    | Ready(r: Request, enforce: bool, wouldBlock: bool)
    | Settling(i: nat, e: Ledger.Entry, foundPending: bool)

  datatype System = System(
    db: State, budgetLocks: map<Id, Replica>, ledgerLock: Option<Replica>, phases: map<Replica, Phase>)

  const START := System(EMPTY, map[], None, map[])

  function Nodes(runs: Runs, id: Id): (nodes: seq<Node>)
    requires Forest(runs) && id in runs
    ensures |nodes| == |Chain(runs, id)|
    ensures forall k :: 0 <= k < |nodes| ==>
      nodes[k] == Node(Chain(runs, id)[k], runs[Chain(runs, id)[k]].budget, runs[Chain(runs, id)[k]].status)
  {
    var chain := Chain(runs, id);
    seq(|chain|, k requires 0 <= k < |chain| => Node(chain[k], runs[chain[k]].budget, runs[chain[k]].status))
  }

  /** A lease spends only against runs of its own principal, as the gateway's lease authentication ensures. */
  ghost predicate LeaseOwned(s: State, r: Request) {
    r.lease.Some? ==>
      && r.lease.value in s.leases && s.leases[r.lease.value].run in s.runs && r.run in s.runs
      && s.runs[s.leases[r.lease.value].run].principal == s.runs[r.run].principal
  }

  datatype Step =
    | Begin(p: Replica, r: Request, enforce: bool)
    | ReadChain(p: Replica)
    | ReadLevel(p: Replica)
    | ReadLease(p: Replica)
    | CommitReserve(p: Replica)
    | BeginSettle(p: Replica, i: nat, e: Ledger.Entry)
    | CommitSettle(p: Replica, now: Ledger.Time)
    | Abort(p: Replica)
    | Single(c: Change)

  /** Commit and rollback both end the transaction and drop its advisory locks. */
  function Finish(a: System, p: Replica, db: State): System {
    System(db, map q | q in a.budgetLocks && a.budgetLocks[q] != p :: a.budgetLocks[q],
           if a.ledgerLock == Some(p) then None else a.ledgerLock, a.phases - {p})
  }

  ghost predicate BudgetFree(a: System, run: Id) {
    run in a.db.runs ==> a.db.runs[run].principal !in a.budgetLocks
  }

  /** Single-statement transactions, and those that find their lock free and commit before any other step. */
  ghost predicate Unlocked(a: System, c: Change) {
    match c
    case NewRun(_, run) => run.parent.Some? ==> BudgetFree(a, run.parent.value)
    case Closing(id) => BudgetFree(a, id)
    case NewLease(_, lease) => BudgetFree(a, lease.run)
    case Appending(_) => a.ledgerLock == None
    case Resolution(_, _) => true
    case Sweeping(_) => true
    case NewHold(_, _) => false
    case Charging(_, _, _) => false
  }

  predicate ShortNow(s: State, n: Node, amount: int)
    requires Forest(s.runs) && n.id in s.runs
  {
    n.budget > 0 && amount > Remaining(n.budget, Spent(s, n.id), Held(s, n.id))
  }

  ghost predicate Next(digest: string -> string, a: System, step: Step, b: System)
    requires Integrity(a.db)
  {
    match step
    case Begin(p, r, enforce) =>
      && p !in a.phases && r.status == Pending && r.run in a.db.runs && BudgetFree(a, r.run) && LeaseOwned(a.db, r)
      && b == a.(budgetLocks := a.budgetLocks[a.db.runs[r.run].principal := p],
                 phases := a.phases[p := Locked(r, enforce)])
    case ReadChain(p) =>
      && p in a.phases && a.phases[p].Locked? && var ph := a.phases[p];
      ph.r.run in a.db.runs
      && b == a.(phases := a.phases[p := Reading(ph.r, ph.enforce, Nodes(a.db.runs, ph.r.run), 0, false)])
    case ReadLevel(p) =>
      && p in a.phases && a.phases[p].Reading? && var ph := a.phases[p];
      ph.level < |ph.chain| && var n := ph.chain[ph.level];
      n.status == Active && n.id in a.db.runs
      && (n.budget != 0 ==> Summable(Spent(a.db, n.id), Held(a.db, n.id)))
      && b == a.(phases := a.phases[p := ph.(level := ph.level + 1,
                   wouldBlock := ph.wouldBlock || ShortNow(a.db, n, ph.r.amount))])
    case ReadLease(p) =>
      && p in a.phases && a.phases[p].Reading? && var ph := a.phases[p];
      ph.level == |ph.chain| && (ph.r.lease.Some? ==> ph.r.lease.value in a.db.leases) && !LeaseFault(a.db, ph.r.lease)
      && b == a.(phases := a.phases[p := Ready(ph.r, ph.enforce,
                   ph.wouldBlock || LeaseShort(a.db, ph.r.lease, ph.r.amount))])
    case CommitReserve(p) =>
      && p in a.phases && a.phases[p].Ready? && var ph := a.phases[p];
      b == Finish(a, p, if (!ph.enforce || !ph.wouldBlock) && Insertable(a.db, ph.r)
                        then InsertHold(a.db, HoldOf(ph.r), !ph.wouldBlock) else a.db)
    case BeginSettle(p, i, e) =>
      && p !in a.phases && a.ledgerLock == None && i < |a.db.holds| && Ledger.InRange(e)
      && a.db.holds[i].id !in a.db.settlements && e.run == a.db.holds[i].run
      && a.db.holds[i].status in {Pending, Expired}
      && b == a.(ledgerLock := Some(p), phases := a.phases[p := Settling(i, e, a.db.holds[i].status == Pending)])
    case CommitSettle(p, now) =>
      && p in a.phases && a.phases[p].Settling? && var ph := a.phases[p];
      ph.i < |a.db.holds| && Appendable(digest, a.db, ph.e, now)
      && b == Finish(a, p, Charge(a.db, ph.i, RowFor(digest, a.db, ph.e, now), ph.foundPending))
    case Abort(p) => p in a.phases && b == Finish(a, p, a.db)
    case Single(c) => Unlocked(a, c) && Enabled(digest, a.db, c) && b == a.(db := Apply(a.db, c))
  }

  function RowFor(digest: string -> string, s: State, e: Ledger.Entry, now: Ledger.Time): Ledger.Row
    requires Appendable(digest, s, e, now)
  {
    Ledger.RowOf(SealedEntry(digest, s.ledger, e, now))
  }

  // The invariant

  /** What a replica has read still bounds what it is about to commit. */
  ghost predicate FactsOk(s: State, ph: Phase)
    requires Forest(s.runs)
  {
    match ph
    case Locked(r, _) => r.status == Pending && r.run in s.runs && LeaseOwned(s, r)
    case Reading(r, _, chain, level, wouldBlock) =>
      && r.status == Pending && r.run in s.runs && LeaseOwned(s, r)
      && chain == Nodes(s.runs, r.run) && level <= |chain|
      && (forall j :: 0 <= j < level ==> chain[j].status == Active)
      && (!wouldBlock ==> forall j :: 0 <= j < level ==> Room(s, chain[j].id, r.amount))
    case Ready(r, _, wouldBlock) =>
      && r.status == Pending && r.run in s.runs && LeaseOwned(s, r) && ChainActive(s.runs, r.run)
      && (!wouldBlock ==> RoomOnChain(s, r.run, r.amount) && LeaseRoom(s, r.lease, r.amount))
    case Settling(i, e, foundPending) =>
      && i < |s.holds| && s.holds[i].id !in s.settlements && e.run == s.holds[i].run && Ledger.InRange(e)
      && (s.holds[i].status == Pending ==> foundPending) && (foundPending || s.holds[i].status == Expired)
  }

  ghost predicate LockOk(a: System, p: Replica)
    requires p in a.phases
  {
    var ph := a.phases[p];
    if ph.Settling? then a.ledgerLock == Some(p)
    else ph.r.run in a.db.runs && a.db.runs[ph.r.run].principal in a.budgetLocks
         && a.budgetLocks[a.db.runs[ph.r.run].principal] == p
  }

  ghost predicate PhasesOk(a: System)
    requires Forest(a.db.runs)
  {
    forall p :: p in a.phases ==> LockOk(a, p) && FactsOk(a.db, a.phases[p])
  }

  ghost predicate SystemOk(digest: string -> string, a: System) {
    Safe(digest, a.db) && PhasesOk(a)
  }

  /** The change leaves alone what the phase's lock protects. */
  ghost predicate Quiet(s: State, c: Change, ph: Phase) {
    if ph.Settling? then !c.Charging?
    else
      && ph.r.run in s.runs
      && (c.Closing? ==> c.id in s.runs && s.runs[c.id].principal != s.runs[ph.r.run].principal)
      && (c.NewHold? && c.fits ==>
            && c.hold.run in s.runs && s.runs[c.hold.run].principal != s.runs[ph.r.run].principal
            && (c.hold.lease.Some? && ph.r.lease.Some? ==> c.hold.lease != ph.r.lease))
  }

  /** For the request's chain and lease, t differs from s only in smaller loads. */
  ghost predicate Undisturbed(s: State, t: State, r: Request)
    requires Forest(s.runs) && r.run in s.runs
  {
    && Forest(t.runs) && r.run in t.runs && Chain(t.runs, r.run) == Chain(s.runs, r.run)
    && (forall k :: 0 <= k < |Chain(s.runs, r.run)| ==> LevelKept(s, t, Chain(s.runs, r.run)[k]))
    && LeaseOwned(t, r)
    && (r.lease.Some? && r.lease.value in s.leases ==> LeaseKept(s, t, r.lease.value))
  }

  ghost predicate LevelKept(s: State, t: State, id: Id)
    requires Forest(s.runs) && Forest(t.runs)
  {
    id in s.runs && id in t.runs && t.runs[id] == s.runs[id] && Load(t, id) <= Load(s, id)
  }

  ghost predicate LeaseKept(s: State, t: State, lease: Id) {
    && lease in s.leases && lease in t.leases && t.leases[lease] == s.leases[lease]
    && LeaseLoad(t, lease) <= LeaseLoad(s, lease)
  }

  lemma LevelUndisturbed(digest: string -> string, s: State, c: Change, run: Id, id: Id)
    requires Integrity(s) && Enabled(digest, s, c) && run in s.runs && id in Chain(s.runs, run)
    requires c.NewHold? && c.fits ==> c.hold.run in s.runs && s.runs[c.hold.run].principal != s.runs[run].principal
    requires c.Closing? ==> c.id in s.runs && s.runs[c.id].principal != s.runs[run].principal
    ensures Integrity(Apply(s, c)) && LevelKept(s, Apply(s, c), id)
  {
    hide LinksOk, UniqueHolds, HoldsReferTo, Load, Enabled, Apply;
    LoadBound(digest, s, c, id);
    RunsExtend(digest, s, c);
    if c.NewHold? && c.fits {
      WalksAreDual(s.runs, id, c.hold.run);
    }
  }

  lemma LeaseUndisturbed(digest: string -> string, s: State, c: Change, lease: Id)
    requires Integrity(s) && Enabled(digest, s, c) && lease in s.leases
    requires c.NewHold? && c.fits ==> c.hold.lease != Some(lease)
    ensures LeaseKept(s, Apply(s, c), lease)
  {
    hide Integrity, LeaseLoad, Enabled;
    LeaseLoadBound(digest, s, c, lease);
    LeasesAreFixed(digest, s, c, lease);
  }

  lemma LeasesAreFixed(digest: string -> string, s: State, c: Change, lease: Id)
    requires Integrity(s) && Enabled(digest, s, c) && lease in s.leases
    ensures lease in Apply(s, c).leases && Apply(s, c).leases[lease] == s.leases[lease]
  {
    hide LinksOk, Forest, HoldsReferTo, UniqueHolds, Sealed, ChainActive;
  }

  lemma RunsExtend(digest: string -> string, s: State, c: Change)
    requires Integrity(s) && Enabled(digest, s, c)
    ensures CanApply(s, c) && Integrity(Apply(s, c)) && Extends(s.runs, Apply(s, c).runs)
    ensures forall id :: id in s.runs && !(c.Closing? && c.id == id) ==> Apply(s, c).runs[id] == s.runs[id]
  {
    hide LinksOk, Forest, HoldsReferTo, UniqueHolds, Sealed, ChainActive, RoomOnChain, LeaseRoom;
    ChangeKeepsIntegrity(digest, s, c);
    if c.NewRun? {
      InsertRunKeepsForest(s.runs, c.id, c.run);
    } else if c.Closing? {
      CloseRunKeepsForest(s.runs, c.id);
    }
  }

  lemma LeaseOwnedKept(s: State, t: State, r: Request)
    requires LeaseOwned(s, r) && Extends(s.runs, t.runs)
    requires r.lease.Some? ==> r.lease.value in t.leases && t.leases[r.lease.value] == s.leases[r.lease.value]
    ensures LeaseOwned(t, r)
  {
  }

  lemma RequestUndisturbed(digest: string -> string, s: State, c: Change, r: Request)
    requires Integrity(s) && Enabled(digest, s, c) && r.run in s.runs && LeaseOwned(s, r)
    requires c.Closing? ==> c.id in s.runs && s.runs[c.id].principal != s.runs[r.run].principal
    requires c.NewHold? && c.fits ==>
      && c.hold.run in s.runs && s.runs[c.hold.run].principal != s.runs[r.run].principal
      && (c.hold.lease.Some? && r.lease.Some? ==> c.hold.lease != r.lease)
    ensures Integrity(Apply(s, c)) && Undisturbed(s, Apply(s, c), r)
  {
    hide LinksOk, UniqueHolds, HoldsReferTo, Enabled, Apply, CanApply, LevelKept, LeaseKept, LeaseOwned, Chain;
    RunsExtend(digest, s, c);
    var t := Apply(s, c);
    ChainIsStable(s.runs, t.runs, r.run);
    forall k | 0 <= k < |Chain(s.runs, r.run)|
      ensures LevelKept(s, t, Chain(s.runs, r.run)[k])
    {
      LevelUndisturbed(digest, s, c, r.run, Chain(s.runs, r.run)[k]);
    }
    if r.lease.Some? {
      OwnedLeaseExists(s, r);
      LeaseUndisturbed(digest, s, c, r.lease.value);
      LeaseKeptRow(s, t, r.lease.value);
    }
    LeaseOwnedKept(s, t, r);
  }

  lemma OwnedLeaseExists(s: State, r: Request)
    requires LeaseOwned(s, r) && r.lease.Some?
    ensures r.lease.value in s.leases
  {
  }

  lemma LeaseKeptRow(s: State, t: State, lease: Id)
    requires LeaseKept(s, t, lease)
    ensures lease in s.leases && lease in t.leases && t.leases[lease] == s.leases[lease]
  {
  }

  /** What a reserving replica has read still holds of undisturbed tables. */
  lemma FactsFollow(s: State, t: State, ph: Phase)
    requires Forest(s.runs) && !ph.Settling? && FactsOk(s, ph) && Undisturbed(s, t, ph.r)
    ensures FactsOk(t, ph)
  {
    hide Chain, LeaseOwned, Load, LeaseLoad, Forest;
    var chain := Chain(s.runs, ph.r.run);
    forall k | 0 <= k < |chain|
      ensures t.runs[chain[k]] == s.runs[chain[k]]
      ensures Room(s, chain[k], ph.r.amount) ==> Room(t, chain[k], ph.r.amount)
    {
      assert LevelKept(s, t, chain[k]);
    }
    assert Nodes(t.runs, ph.r.run) == Nodes(s.runs, ph.r.run);
    if ph.r.lease.Some? {
      OwnedLeaseExists(s, ph.r);
    }
  }

  lemma SettlingKept(digest: string -> string, s: State, c: Change, ph: Phase)
    requires Integrity(s) && Enabled(digest, s, c) && !c.Charging? && ph.Settling? && FactsOk(s, ph)
    ensures Forest(Apply(s, c).runs) && FactsOk(Apply(s, c), ph)
  {
    hide LinksOk, HoldsReferTo, UniqueHolds, Sealed, ChainActive, RoomOnChain, LeaseRoom, Ledger.InRange;
    RunsExtend(digest, s, c);
  }

  /** No step outside a lock's protection spoils what its holder has read. */
  lemma FactsKept(digest: string -> string, s: State, c: Change, ph: Phase)
    requires Integrity(s) && Enabled(digest, s, c) && FactsOk(s, ph) && Quiet(s, c, ph)
    ensures Integrity(Apply(s, c)) && FactsOk(Apply(s, c), ph)
  {
    hide LinksOk, UniqueHolds, HoldsReferTo, Forest, Enabled, Apply, CanApply, Room, RoomOnChain, ChainActive,
      LeaseRoom, LeaseOwned, Ledger.InRange, Undisturbed;
    RunsExtend(digest, s, c);
    if ph.Settling? {
      SettlingKept(digest, s, c, ph);
    } else {
      RequestUndisturbed(digest, s, c, ph.r);
      FactsFollow(s, Apply(s, c), ph);
    }
  }

  // Preservation, step by step

  /** Replacing one replica's phase keeps the others' facts; the new phase owes its own. */
  lemma PhaseChanged(a: System, b: System, p: Replica, ph: Phase)
    requires Forest(a.db.runs) && PhasesOk(a) && b.db == a.db && b.phases == a.phases[p := ph]
    requires forall q :: q in a.budgetLocks ==> q in b.budgetLocks && b.budgetLocks[q] == a.budgetLocks[q]
    requires a.ledgerLock.Some? ==> b.ledgerLock == a.ledgerLock
    requires LockOk(b, p) && FactsOk(b.db, ph)
    ensures PhasesOk(b)
  {
    hide FactsOk, Forest;
    forall q | q in b.phases
      ensures LockOk(b, q) && FactsOk(b.db, b.phases[q])
    {
      if q != p {
        assert LockOk(a, q);
      }
    }
  }

  lemma ReadLevelKeeps(s: State, ph: Phase, after: Phase)
    requires Integrity(s) && BudgetSafe(s) && ph.Reading? && FactsOk(s, ph) && ph.level < |ph.chain|
    requires ph.chain[ph.level].status == Active && ph.chain[ph.level].id in s.runs
    requires after == ph.(level := ph.level + 1,
                          wouldBlock := ph.wouldBlock || ShortNow(s, ph.chain[ph.level], ph.r.amount))
    ensures FactsOk(s, after)
  {
    hide LinksOk, UniqueHolds, HoldsReferTo, Forest, LeaseOwned, Spent, Held, Load;
    var n := ph.chain[ph.level];
    assert n == Node(n.id, s.runs[n.id].budget, s.runs[n.id].status);
    if !after.wouldBlock {
      assert !Short(s, n.id, ph.r.amount);
      NotShortHasRoom(s, n.id, ph.r.amount);
    }
  }

  lemma ReadLeaseKeeps(s: State, ph: Phase)
    requires Integrity(s) && LeasesSafe(s) && ph.Reading? && FactsOk(s, ph) && ph.level == |ph.chain|
    requires ph.r.lease.Some? ==> ph.r.lease.value in s.leases
    ensures FactsOk(s, Ready(ph.r, ph.enforce, ph.wouldBlock || LeaseShort(s, ph.r.lease, ph.r.amount)))
  {
    hide LinksOk, UniqueHolds, HoldsReferTo, Forest, LeaseOwned, Room, LeaseRemaining, LeaseLoad;
    var chain := Chain(s.runs, ph.r.run);
    forall k | 0 <= k < |chain|
      ensures s.runs[chain[k]].status == Active
      ensures !ph.wouldBlock ==> Room(s, chain[k], ph.r.amount)
    {
      assert ph.chain[k] == Node(chain[k], s.runs[chain[k]].budget, s.runs[chain[k]].status);
    }
    if !LeaseShort(s, ph.r.lease, ph.r.amount) {
      NotShortHasLeaseRoom(s, ph.r.lease, ph.r.amount);
    }
  }

  lemma ReadyIsEnabled(digest: string -> string, s: State, ph: Phase)
    requires Integrity(s) && ph.Ready? && FactsOk(s, ph) && Insertable(s, ph.r)
    ensures Enabled(digest, s, NewHold(HoldOf(ph.r), !ph.wouldBlock))
  {
    hide LinksOk, UniqueHolds, HoldsReferTo, Forest, ChainActive, RoomOnChain, LeaseRoom;
  }

  lemma SettlingIsEnabled(digest: string -> string, s: State, ph: Phase, now: Ledger.Time)
    requires Integrity(s) && ph.Settling? && FactsOk(s, ph) && Appendable(digest, s, ph.e, now)
    ensures Enabled(digest, s, Charging(ph.i, RowFor(digest, s, ph.e, now), ph.foundPending))
  {
    hide SealedEntry, Sealed, Appendable, Ledger.InRange;
    SealedColumns(digest, s, ph.e, now);
    SealedKeepsChain(digest, s, ph.e, now);
  }

  /** Ending p's transaction with one change keeps every other replica's facts. */
  lemma FinishKeeps(digest: string -> string, a: System, p: Replica, c: Change)
    requires SystemOk(digest, a) && Integrity(a.db) && Enabled(digest, a.db, c)
    requires forall q :: q in a.phases && q != p ==> Quiet(a.db, c, a.phases[q])
    ensures CanApply(a.db, c) && SystemOk(digest, Finish(a, p, Apply(a.db, c)))
  {
    hide Integrity, Enabled, FactsOk, CanApply, BudgetSafe, LeasesSafe, Ledger.ChainOk, Apply;
    RunsExtend(digest, a.db, c);
    ChangeKeepsSafe(digest, a.db, c);
    var b := Finish(a, p, Apply(a.db, c));
    SafeIsForest(digest, b.db);
    forall q | q in b.phases
      ensures LockOk(b, q) && FactsOk(b.db, b.phases[q])
    {
      assert LockOk(a, q);
      FactsKept(digest, a.db, c, a.phases[q]);
    }
  }

  lemma FinishUnchanged(digest: string -> string, a: System, p: Replica)
    requires SystemOk(digest, a)
    ensures SystemOk(digest, Finish(a, p, a.db))
  {
    hide Integrity, FactsOk, BudgetSafe, LeasesSafe, Ledger.ChainOk;
    SafeIsForest(digest, a.db);
    var b := Finish(a, p, a.db);
    forall q | q in b.phases
      ensures LockOk(b, q) && FactsOk(b.db, b.phases[q])
    {
      assert LockOk(a, q);
    }
  }

  /** While p holds its principal's lock, no other reserving replica works on that principal. */
  lemma CommitIsQuiet(a: System, p: Replica, q: Replica, fits: bool)
    requires Integrity(a.db) && PhasesOk(a) && p in a.phases && q in a.phases && p != q
    requires a.phases[p].Ready? && 0 <= a.phases[p].r.amount
    ensures Quiet(a.db, NewHold(HoldOf(a.phases[p].r), fits), a.phases[q])
  {
    hide LinksOk, UniqueHolds, HoldsReferTo, Forest, Room, ChainActive, RoomOnChain, LeaseRoom;
    assert LockOk(a, p) && LockOk(a, q);
    assert FactsOk(a.db, a.phases[p]) && FactsOk(a.db, a.phases[q]);
  }

  lemma ChargeIsQuiet(a: System, p: Replica, q: Replica, c: Change)
    requires Integrity(a.db) && PhasesOk(a) && p in a.phases && q in a.phases && p != q
    requires a.phases[p].Settling? && c.Charging?
    ensures Quiet(a.db, c, a.phases[q])
  {
    hide Integrity, FactsOk;
    assert LockOk(a, p) && LockOk(a, q);
  }

  lemma SingleIsQuiet(a: System, c: Change, q: Replica)
    requires Integrity(a.db) && PhasesOk(a) && q in a.phases && Unlocked(a, c)
    requires c.Closing? ==> c.id in a.db.runs
    ensures Quiet(a.db, c, a.phases[q])
  {
    hide Integrity, FactsOk;
    assert LockOk(a, q);
  }

  lemma SingleKeeps(digest: string -> string, a: System, c: Change)
    requires SystemOk(digest, a) && Integrity(a.db) && Unlocked(a, c) && Enabled(digest, a.db, c)
    ensures CanApply(a.db, c) && SystemOk(digest, a.(db := Apply(a.db, c)))
  {
    hide Integrity, Enabled, FactsOk, CanApply, BudgetSafe, LeasesSafe, Ledger.ChainOk, Apply, Quiet, Unlocked;
    RunsExtend(digest, a.db, c);
    ChangeKeepsSafe(digest, a.db, c);
    var b := a.(db := Apply(a.db, c));
    SafeIsForest(digest, b.db);
    forall q | q in b.phases
      ensures LockOk(b, q) && FactsOk(b.db, b.phases[q])
    {
      assert LockOk(a, q);
      ClosingIsKnown(digest, a.db, c);
      SingleIsQuiet(a, c, q);
      FactsKept(digest, a.db, c, a.phases[q]);
    }
  }

  lemma ClosingIsKnown(digest: string -> string, s: State, c: Change)
    requires Integrity(s) && Enabled(digest, s, c)
    ensures c.Closing? ==> c.id in s.runs
  {
  }

  lemma BeginKeeps(digest: string -> string, a: System, step: Step, b: System)
    requires SystemOk(digest, a) && Integrity(a.db) && Next(digest, a, step, b)
    requires step.Begin? || step.ReadChain? || step.BeginSettle?
    ensures SystemOk(digest, b)
  {
    hide Integrity, BudgetSafe, LeasesSafe, Ledger.ChainOk, PhasesOk, LeaseOwned, Forest, Ledger.InRange;
    SafeIsForest(digest, a.db);
    if step.ReadChain? {
      PhaseHolds(a, step.p);
    }
    PhaseChanged(a, b, step.p, b.phases[step.p]);
  }

  lemma PhaseHolds(a: System, p: Replica)
    requires Forest(a.db.runs) && PhasesOk(a) && p in a.phases
    ensures LockOk(a, p) && FactsOk(a.db, a.phases[p])
  {
  }

  lemma ReadKeeps(digest: string -> string, a: System, step: Step, b: System)
    requires SystemOk(digest, a) && Integrity(a.db) && Next(digest, a, step, b)
    requires step.ReadLevel? || step.ReadLease?
    ensures SystemOk(digest, b)
  {
    hide Integrity, BudgetSafe, LeasesSafe, Ledger.ChainOk, PhasesOk, FactsOk, Forest, ShortNow, LeaseShort;
    SafeIsForest(digest, a.db);
    PhaseHolds(a, step.p);
    SafeBudgets(digest, a.db);
    if step.ReadLevel? {
      ReadLevelKeeps(a.db, a.phases[step.p], b.phases[step.p]);
    } else {
      ReadLeaseKeeps(a.db, a.phases[step.p]);
    }
    PhaseChanged(a, b, step.p, b.phases[step.p]);
  }

  lemma SafeBudgets(digest: string -> string, s: State)
    requires Safe(digest, s)
    ensures Integrity(s) && BudgetSafe(s) && LeasesSafe(s)
  {
  }

  lemma CommitReserveKeeps(digest: string -> string, a: System, p: Replica, b: System)
    requires SystemOk(digest, a) && Integrity(a.db) && Next(digest, a, CommitReserve(p), b)
    ensures SystemOk(digest, b)
  {
    hide Integrity, Safe, PhasesOk, FactsOk, Forest, Enabled, Quiet, CanApply;
    SafeIsForest(digest, a.db);
    PhaseHolds(a, p);
    FinishUnchanged(digest, a, p);
    var ph := a.phases[p];
    if (!ph.enforce || !ph.wouldBlock) && Insertable(a.db, ph.r) {
      ReadyIsEnabled(digest, a.db, ph);
      forall q | q in a.phases && q != p
        ensures Quiet(a.db, NewHold(HoldOf(ph.r), !ph.wouldBlock), a.phases[q])
      {
        CommitIsQuiet(a, p, q, !ph.wouldBlock);
      }
      FinishKeeps(digest, a, p, NewHold(HoldOf(ph.r), !ph.wouldBlock));
    }
  }

  lemma CommitSettleKeeps(digest: string -> string, a: System, p: Replica, now: Ledger.Time, b: System)
    requires SystemOk(digest, a) && Integrity(a.db) && Next(digest, a, CommitSettle(p, now), b)
    ensures SystemOk(digest, b)
  {
    hide Integrity, Safe, PhasesOk, FactsOk, Forest, Enabled, Quiet, CanApply, Charge, Appendable, RowFor;
    SafeIsForest(digest, a.db);
    PhaseHolds(a, p);
    var ph := a.phases[p];
    SettlingIsEnabled(digest, a.db, ph, now);
    var c := Charging(ph.i, RowFor(digest, a.db, ph.e, now), ph.foundPending);
    forall q | q in a.phases && q != p
      ensures Quiet(a.db, c, a.phases[q])
    {
      ChargeIsQuiet(a, p, q, c);
    }
    FinishKeeps(digest, a, p, c);
  }

  lemma AbortOrSingleKeeps(digest: string -> string, a: System, step: Step, b: System)
    requires SystemOk(digest, a) && Integrity(a.db) && Next(digest, a, step, b)
    requires step.Abort? || step.Single?
    ensures SystemOk(digest, b)
  {
    hide Integrity, Safe, PhasesOk, Enabled, Unlocked, CanApply, Apply;
    if step.Abort? {
      FinishUnchanged(digest, a, step.p);
    } else {
      SingleKeeps(digest, a, step.c);
    }
  }

  /** Every step of every replica keeps the database safe and every open transaction's reads sound. */
  lemma StepKeepsOk(digest: string -> string, a: System, step: Step, b: System)
    requires SystemOk(digest, a) && Integrity(a.db) && Next(digest, a, step, b)
    ensures SystemOk(digest, b) && Integrity(b.db)
  {
    hide Integrity, Safe, PhasesOk, Next;
    match step {
      case Begin(_, _, _) => BeginKeeps(digest, a, step, b);
      case ReadChain(_) => BeginKeeps(digest, a, step, b);
      case BeginSettle(_, _, _) => BeginKeeps(digest, a, step, b);
      case ReadLevel(_) => ReadKeeps(digest, a, step, b);
      case ReadLease(_) => ReadKeeps(digest, a, step, b);
      case CommitReserve(p) => CommitReserveKeeps(digest, a, p, b);
      case CommitSettle(p, now) => CommitSettleKeeps(digest, a, p, now, b);
      case Abort(_) => AbortOrSingleKeeps(digest, a, step, b);
      case Single(_) => AbortOrSingleKeeps(digest, a, step, b);
    }
    SafeIsForest(digest, b.db);
  }

  // Executions

  ghost predicate Execution(digest: string -> string, steps: seq<Step>, run: seq<System>) {
    && |run| == |steps| + 1 && run[0] == START
    && forall i :: 0 <= i < |steps| ==> Integrity(run[i].db) ==> Next(digest, run[i], steps[i], run[i + 1])
  }

  lemma {:induction false} ExecutionIsOk(digest: string -> string, steps: seq<Step>, run: seq<System>, i: nat)
    requires Execution(digest, steps, run) && i < |run|
    ensures SystemOk(digest, run[i]) && Integrity(run[i].db)
  {
    hide SystemOk, Integrity, Next;
    if i == 0 {
      StartIsOk(digest);
    } else {
      ExecutionIsOk(digest, steps, run, i - 1);
      StepKeepsOk(digest, run[i - 1], steps[i - 1], run[i]);
    }
  }

  lemma StartIsOk(digest: string -> string)
    ensures SystemOk(digest, START) && Integrity(START.db)
  {
  }

  /** Multi-replica budget safety, under any interleaving: what is past a budget was waived there. */
  lemma BudgetsHoldAcrossReplicas(digest: string -> string, steps: seq<Step>, run: seq<System>, i: nat, id: Id)
    requires Execution(digest, steps, run) && i < |run|
    requires id in run[i].db.runs && run[i].db.runs[id].budget > 0
    ensures var s := run[i].db;
      Forest(s.runs) && Spent(s, id) + Held(s, id) <= s.runs[id].budget + Waived(s, id)
  {
    hide Execution, LinksOk, PhasesOk;
    ExecutionIsOk(digest, steps, run, i);
  }

  /** The same for leases. */
  lemma LeaseCeilingsHoldAcrossReplicas(digest: string -> string, steps: seq<Step>, run: seq<System>, i: nat, lease: Id)
    requires Execution(digest, steps, run) && i < |run|
    requires lease in run[i].db.leases && run[i].db.leases[lease].ceiling > 0
    ensures var s := run[i].db;
      LeaseSpent(s, lease) + LeaseHeld(s, lease) <= s.leases[lease].ceiling + Total(s.waivers, LeaseWaivedBy(lease))
  {
    hide Execution, LinksOk, PhasesOk;
    ExecutionIsOk(digest, steps, run, i);
  }

  /** Enforced decisions; charges within a hold that is still pending when they commit; no direct appends. */
  ghost predicate Disciplined(a: System, step: Step) {
    && (step.CommitReserve? && step.p in a.phases && a.phases[step.p].Ready? ==> a.phases[step.p].enforce)
    && (step.CommitSettle? && step.p in a.phases && a.phases[step.p].Settling? ==>
          var ph := a.phases[step.p];
          ph.i < |a.db.holds| && a.db.holds[ph.i].status == Pending && ph.e.cost <= a.db.holds[ph.i].amount)
    && !(step.Single? && step.c.Appending?)
  }

  lemma DisciplinedSettle(digest: string -> string, a: System, step: Step, b: System)
    requires Integrity(a.db) && Next(digest, a, step, b) && Disciplined(a, step) && NothingWaived(a.db)
    requires step.CommitSettle?
    ensures NothingWaived(b.db)
  {
    hide Integrity, Charge, Appendable, RowFor;
    var ph := a.phases[step.p];
    var row := RowFor(digest, a.db, ph.e, step.now);
    SealedCost(digest, a.db, ph.e, step.now);
    ChargeParts(a.db, ph.i, row, ph.foundPending);
  }

  lemma DisciplineWaivesNothing(digest: string -> string, a: System, step: Step, b: System)
    requires Integrity(a.db) && Next(digest, a, step, b) && Disciplined(a, step) && NothingWaived(a.db)
    ensures NothingWaived(b.db)
  {
    hide Integrity, Forest, Charge, Appendable, RowFor, Ledger.InRange, LeaseOwned, Sealed, ChainActive, RoomOnChain,
      LeaseRoom, Nodes, ShortNow, LeaseShort, LeaseFault;
    if step.CommitSettle? {
      DisciplinedSettle(digest, a, step, b);
    }
  }

  lemma SealedCost(digest: string -> string, s: State, e: Ledger.Entry, now: Ledger.Time)
    requires Appendable(digest, s, e, now)
    ensures RowFor(digest, s, e, now).cost == e.cost
  {
  }

  lemma {:induction false} DisciplinedExecution(digest: string -> string, steps: seq<Step>, run: seq<System>, i: nat)
    requires Execution(digest, steps, run) && i < |run|
    requires forall k :: 0 <= k < i ==> Disciplined(run[k], steps[k])
    ensures NothingWaived(run[i].db)
  {
    hide Integrity, SystemOk, Next, Disciplined;
    if i > 0 {
      DisciplinedExecution(digest, steps, run, i - 1);
      ExecutionIsOk(digest, steps, run, i - 1);
      DisciplineWaivesNothing(digest, run[i - 1], steps[i - 1], run[i]);
    }
  }

  /** No interleaving of disciplined replicas takes a budgeted subtree past its budget, at any instant. */
  lemma NeverOverBudgetAcrossReplicas(digest: string -> string, steps: seq<Step>, run: seq<System>, i: nat, id: Id)
    requires Execution(digest, steps, run) && i < |run|
    requires forall k :: 0 <= k < i ==> Disciplined(run[k], steps[k])
    requires id in run[i].db.runs && run[i].db.runs[id].budget > 0
    ensures Forest(run[i].db.runs)
    ensures Spent(run[i].db, id) + Held(run[i].db, id) <= run[i].db.runs[id].budget
  {
    hide Execution, Disciplined;
    BudgetsHoldAcrossReplicas(digest, steps, run, i, id);
    DisciplinedExecution(digest, steps, run, i);
    ZeroTotal(run[i].db.waivers, WaivedBy(Subtree(run[i].db.runs, id)));
  }
}
