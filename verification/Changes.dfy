/** The row changes a store transaction commits, and what each does to integrity and to every load. */
module Changes {
  import opened Wrappers
  import opened Sums
  import opened Hierarchy
  import opened Tables
  import Ledger
  import Stamps

  function InsertRun(s: State, id: Id, run: Run): State {
    s.(runs := s.runs[id := run])
  }

  function CloseRow(s: State, id: Id): State
    requires id in s.runs
  {
    s.(runs := s.runs[id := s.runs[id].(status := Closed)])
  }

  function InsertLease(s: State, id: Id, lease: Lease): State {
    s.(leases := s.leases[id := lease])
  }

  function Waive(s: State, run: Id, lease: Option<Id>, amount: nat): State {
    s.(waivers := s.waivers + [Waiver(run, lease, amount)])
  }

  /** A new hold; one that did not fit is waived in full. */
  function InsertHold(s: State, hold: Hold, fits: bool): State {
    var held := s.(holds := s.holds + [hold]);
    if fits then held else Waive(held, hold.run, hold.lease, hold.amount)
  }

  function Resolve(s: State, i: nat, status: HoldStatus): State
    requires i < |s.holds|
  {
    s.(holds := s.holds[i := s.holds[i].(status := status)])
  }

  function Swept(hold: Hold, now: Instant): Hold {
    if hold.status == Pending && Stamps.TextAtMost(hold.expiresAt, now) then hold.(status := Expired) else hold
  }

  function Sweep(s: State, now: Instant): State {
    s.(holds := seq(|s.holds|, i requires 0 <= i < |s.holds| => Swept(s.holds[i], now)))
  }

  /** A ledger row outside any reservation is waived in full. */
  function AppendUnreserved(s: State, row: Ledger.Row): State {
    Waive(s.(ledger := s.ledger + [row]), row.run, None, row.cost)
  }

  /** What a charge costs beyond the hold it resolves: the whole of it when the hold no longer counts. */
  function Overrun(hold: Hold, cost: nat): nat {
    if hold.status == Pending then (if cost > hold.amount then cost - hold.amount else 0) else cost
  }

  /** A charge for hold i: the ledger row, its link, and the hold's status if the caller found it pending. */
  function Charge(s: State, i: nat, row: Ledger.Row, resolve: bool): State
    requires i < |s.holds|
  {
    var hold := s.holds[i];
    var charged := s.(ledger := s.ledger + [row], settlements := s.settlements[hold.id := |s.ledger| + 1]);
    var resolved := if resolve then Resolve(charged, i, Settled) else charged;
    Waive(resolved, hold.run, hold.lease, Overrun(hold, row.cost))
  }

  lemma AppendParts(s: State, row: Ledger.Row)
    ensures AppendUnreserved(s, row)
         == s.(ledger := s.ledger + [row], waivers := s.waivers + [Waiver(row.run, None, row.cost)])
  {
  }

  lemma ChargeParts(s: State, i: nat, row: Ledger.Row, resolve: bool)
    requires i < |s.holds|
    ensures var t := Charge(s, i, row, resolve);
      && t.runs == s.runs && t.leases == s.leases && t.ledger == s.ledger + [row]
      && t.holds == (if resolve then s.holds[i := s.holds[i].(status := Settled)] else s.holds)
      && t.settlements == s.settlements[s.holds[i].id := |s.ledger| + 1]
      && t.waivers == s.waivers + [Waiver(s.holds[i].run, s.holds[i].lease, Overrun(s.holds[i], row.cost))]
  {
  }

  // Loads. Every lemma below is about an arbitrary set of runs, so it serves every level of a hierarchy.

  lemma InsertHoldLoad(s: State, hold: Hold, fits: bool, tree: set<Id>)
    requires hold.status == Pending
    ensures LoadOf(InsertHold(s, hold, fits), tree)
         == LoadOf(s, tree) + if fits && hold.run in tree then hold.amount else 0
  {
    TotalOfAppend(s.holds, hold, HeldBy(tree));
    TotalOfAppend(s.waivers, Waiver(hold.run, hold.lease, hold.amount), WaivedBy(tree));
  }

  lemma ResolveLoad(s: State, i: nat, status: HoldStatus, tree: set<Id>)
    requires i < |s.holds| && s.holds[i].status == Pending && status != Pending
    ensures LoadOf(Resolve(s, i, status), tree)
         == LoadOf(s, tree) - if s.holds[i].run in tree then s.holds[i].amount else 0
  {
    TotalOfUpdate(s.holds, i, s.holds[i].(status := status), HeldBy(tree));
  }

  lemma SweepLoad(s: State, now: Instant, tree: set<Id>)
    ensures LoadOf(Sweep(s, now), tree) <= LoadOf(s, tree)
  {
    TotalMonotone(Sweep(s, now).holds, HeldBy(tree), s.holds, HeldBy(tree));
  }

  lemma AppendUnreservedLoad(s: State, row: Ledger.Row, tree: set<Id>)
    ensures LoadOf(AppendUnreserved(s, row), tree) == LoadOf(s, tree)
  {
    TotalOfAppend(s.ledger, row, SpentBy(tree));
    TotalOfAppend(s.waivers, Waiver(row.run, None, row.cost), WaivedBy(tree));
  }

  /** No charge raises a load: the ledger gains at most what the hold gives up plus what is waived. */
  lemma ChargeLoad(s: State, i: nat, row: Ledger.Row, resolve: bool, tree: set<Id>)
    requires i < |s.holds| && row.run == s.holds[i].run
    requires s.holds[i].status == Pending ==> resolve
    ensures LoadOf(Charge(s, i, row, resolve), tree) <= LoadOf(s, tree)
  {
    hide Charge;
    ChargeParts(s, i, row, resolve);
    var hold := s.holds[i];
    TotalOfAppend(s.ledger, row, SpentBy(tree));
    TotalOfUpdate(s.holds, i, hold.(status := Settled), HeldBy(tree));
    TotalOfAppend(s.waivers, Waiver(hold.run, hold.lease, Overrun(hold, row.cost)), WaivedBy(tree));
  }

  /** Rows refer only to known runs, so a set's load does not depend on runs it knows nothing of. */
  lemma LoadDependsOnKnown(s: State, a: set<Id>, b: set<Id>)
    requires Integrity(s) && forall id :: id in s.runs ==> (id in a <==> id in b)
    ensures LoadOf(s, a) == LoadOf(s, b)
  {
    TotalCongruent(s.ledger, SpentBy(a), s.ledger, SpentBy(b));
    TotalCongruent(s.holds, HeldBy(a), s.holds, HeldBy(b));
    TotalCongruent(s.waivers, WaivedBy(a), s.waivers, WaivedBy(b));
  }

  // Runs

  lemma InsertRunKeepsForest(runs: Runs, id: Id, run: Run)
    requires Forest(runs) && id !in runs && run.row == |runs|
    requires run.parent.Some? ==> run.parent.value in runs && runs[run.parent.value].principal == run.principal
    ensures Forest(runs[id := run]) && Extends(runs, runs[id := run])
  {
    var later := runs[id := run];
    assert |later| == |runs| + 1;
    forall r | r in later
      ensures later[r].row < |later| && (later[r].parent.Some? ==> ParentOk(later, r, later[r].parent.value))
    {
      if r != id && runs[r].parent.Some? {
        assert ParentOk(runs, r, runs[r].parent.value);
      }
    }
  }

  lemma CloseRunKeepsForest(runs: Runs, id: Id)
    requires Forest(runs) && id in runs
    ensures Forest(runs[id := runs[id].(status := Closed)])
    ensures Extends(runs, runs[id := runs[id].(status := Closed)])
  {
    var later := runs[id := runs[id].(status := Closed)];
    assert later.Keys == runs.Keys;
    assert |later| == |later.Keys| == |runs.Keys| == |runs|;
    forall r | r in later
      ensures later[r].row < |later| && (later[r].parent.Some? ==> ParentOk(later, r, later[r].parent.value))
    {
      if runs[r].parent.Some? {
        assert ParentOk(runs, r, runs[r].parent.value);
      }
    }
  }

  /** Adding or closing runs changes no existing run's load. */
  lemma LoadIsStable(s: State, later: State, id: Id)
    requires Integrity(s) && later == s.(runs := later.runs) && Forest(later.runs)
    requires Extends(s.runs, later.runs) && id in s.runs
    ensures Load(later, id) == Load(s, id)
  {
    forall r | r in s.runs
      ensures r in Subtree(later.runs, id) <==> r in Subtree(s.runs, id)
    {
      SubtreeIsStable(s.runs, later.runs, id, r);
    }
    LoadDependsOnKnown(s, Subtree(later.runs, id), Subtree(s.runs, id));
  }

  /** A new run starts unloaded: nothing refers to it, and it is no existing run's ancestor. */
  lemma NewRunIsUnloaded(s: State, id: Id, run: Run)
    requires Integrity(s) && id !in s.runs && Forest(s.runs[id := run]) && Extends(s.runs, s.runs[id := run])
    ensures Load(InsertRun(s, id, run), id) == 0
  {
    var later := s.runs[id := run];
    forall r | r in s.runs
      ensures r !in Subtree(later, id)
    {
      ChainIsStable(s.runs, later, r);
      WalksAreDual(later, id, r);
    }
    LoadDependsOnKnown(s, Subtree(later, id), {});
    EmptyTreeIsUnloaded(s);
  }

  lemma {:induction false} ZeroTotal<T>(rows: seq<T>, weight: T -> nat)
    requires forall i :: 0 <= i < |rows| ==> weight(rows[i]) == 0
    ensures Total(rows, weight) == 0
  {
    if rows != [] {
      ZeroTotal(rows[..|rows| - 1], weight);
    }
  }

  lemma EmptyTreeIsUnloaded(s: State)
    ensures LoadOf(s, {}) == 0
  {
    ZeroTotal(s.ledger, SpentBy({}));
    ZeroTotal(s.holds, HeldBy({}));
    ZeroTotal(s.waivers, WaivedBy({}));
  }

  // Lease loads

  lemma InsertHoldLeaseLoad(s: State, hold: Hold, fits: bool, lease: Id)
    requires hold.status == Pending && hold.id !in s.settlements
    ensures LeaseLoad(InsertHold(s, hold, fits), lease)
         == LeaseLoad(s, lease) + if fits && hold.lease == Some(lease) then hold.amount else 0
  {
    TotalOfAppend(s.holds, hold, LeaseSpentBy(s.settlements, s.ledger, lease));
    TotalOfAppend(s.holds, hold, LeaseHeldBy(lease));
    TotalOfAppend(s.waivers, Waiver(hold.run, hold.lease, hold.amount), LeaseWaivedBy(lease));
  }

  lemma ResolveLeaseLoad(s: State, i: nat, status: HoldStatus, lease: Id)
    requires i < |s.holds| && status != Pending
    ensures LeaseLoad(Resolve(s, i, status), lease) <= LeaseLoad(s, lease)
  {
    var hold := s.holds[i].(status := status);
    TotalOfUpdate(s.holds, i, hold, LeaseSpentBy(s.settlements, s.ledger, lease));
    TotalOfUpdate(s.holds, i, hold, LeaseHeldBy(lease));
  }

  lemma SweepLeaseLoad(s: State, now: Instant, lease: Id)
    ensures LeaseLoad(Sweep(s, now), lease) <= LeaseLoad(s, lease)
  {
    var spent := LeaseSpentBy(s.settlements, s.ledger, lease);
    TotalCongruent(Sweep(s, now).holds, spent, s.holds, spent);
    TotalMonotone(Sweep(s, now).holds, LeaseHeldBy(lease), s.holds, LeaseHeldBy(lease));
  }

  lemma AppendUnreservedLeaseLoad(s: State, row: Ledger.Row, lease: Id)
    requires LinksOk(s)
    ensures LeaseLoad(AppendUnreserved(s, row), lease) == LeaseLoad(s, lease)
  {
    TotalCongruent(s.holds, LeaseSpentBy(s.settlements, s.ledger + [row], lease),
                   s.holds, LeaseSpentBy(s.settlements, s.ledger, lease));
    TotalOfAppend(s.waivers, Waiver(row.run, None, row.cost), LeaseWaivedBy(lease));
  }

  /** Only the charged hold's joined cost changes, from nothing to the cost of the new row. */
  lemma ChargeLeaseSpent(s: State, i: nat, row: Ledger.Row, lease: Id)
    requires i < |s.holds| && LinksOk(s) && UniqueHolds(s.holds) && s.holds[i].id !in s.settlements
    ensures Total(s.holds, LeaseSpentBy(s.settlements[s.holds[i].id := |s.ledger| + 1], s.ledger + [row], lease))
         == LeaseSpent(s, lease) + if s.holds[i].lease == Some(lease) then row.cost else 0
  {
    var before := LeaseSpentBy(s.settlements, s.ledger, lease);
    var after := LeaseSpentBy(s.settlements[s.holds[i].id := |s.ledger| + 1], s.ledger + [row], lease);
    var other := s.holds[i].(lease := None);
    TotalOfUpdate(s.holds, i, other, before);
    TotalOfUpdate(s.holds, i, other, after);
    var rest := s.holds[i := other];
    forall j | 0 <= j < |rest|
      ensures before(rest[j]) == after(rest[j])
    {
      if j != i {
        assert rest[j] == s.holds[j] && s.holds[j].id != s.holds[i].id;
      }
    }
    TotalCongruent(rest, before, rest, after);
  }

  lemma ChargeLeaseLoad(s: State, i: nat, row: Ledger.Row, resolve: bool, lease: Id)
    requires i < |s.holds| && LinksOk(s) && UniqueHolds(s.holds) && s.holds[i].id !in s.settlements
    requires s.holds[i].status == Pending ==> resolve
    ensures LeaseLoad(Charge(s, i, row, resolve), lease) <= LeaseLoad(s, lease)
  {
    var hold := s.holds[i];
    var settled := hold.(status := Settled);
    var spent := LeaseSpentBy(s.settlements[hold.id := |s.ledger| + 1], s.ledger + [row], lease);
    ChargeLeaseSpent(s, i, row, lease);
    TotalOfUpdate(s.holds, i, settled, spent);
    TotalOfUpdate(s.holds, i, settled, LeaseHeldBy(lease));
    TotalOfAppend(s.waivers, Waiver(hold.run, hold.lease, Overrun(hold, row.cost)), LeaseWaivedBy(lease));
  }

  lemma NewLeaseIsUnloaded(s: State, id: Id, lease: Lease)
    requires Integrity(s) && id !in s.leases
    ensures LeaseLoad(InsertLease(s, id, lease), id) == 0
  {
    ZeroTotal(s.holds, LeaseSpentBy(s.settlements, s.ledger, id));
    ZeroTotal(s.holds, LeaseHeldBy(id));
    ZeroTotal(s.waivers, LeaseWaivedBy(id));
  }

  // Integrity

  lemma InsertRunKeepsIntegrity(s: State, id: Id, run: Run)
    requires Integrity(s) && id !in s.runs && run.row == |s.runs|
    requires run.parent.Some? ==> run.parent.value in s.runs && s.runs[run.parent.value].principal == run.principal
    ensures Integrity(InsertRun(s, id, run))
  {
    InsertRunKeepsForest(s.runs, id, run);
    LinksDependOnRows(s, InsertRun(s, id, run));
  }

  lemma CloseRunKeepsIntegrity(s: State, id: Id)
    requires Integrity(s) && id in s.runs
    ensures Integrity(CloseRow(s, id))
  {
    CloseRunKeepsForest(s.runs, id);
    LinksDependOnRows(s, CloseRow(s, id));
  }

  lemma InsertLeaseKeepsIntegrity(s: State, id: Id, lease: Lease)
    requires Integrity(s) && lease.run in s.runs
    ensures Integrity(InsertLease(s, id, lease))
  {
    LinksDependOnRows(s, InsertLease(s, id, lease));
  }

  lemma LinksDependOnRows(s: State, t: State)
    requires LinksOk(s) && t.holds == s.holds && t.settlements == s.settlements && t.ledger == s.ledger
    ensures LinksOk(t)
  {
    forall i | 0 <= i < |t.holds| && t.holds[i].id in t.settlements
      ensures LinkOk(t, i)
    {
      assert LinkOk(s, i);
    }
  }

  lemma {:induction false} LocateDependsOnIds(a: seq<Hold>, b: seq<Hold>, id: Id)
    requires |a| == |b| && forall i :: 0 <= i < |a| ==> a[i].id == b[i].id
    ensures Locate(a, id) == Locate(b, id)
  {
    if a != [] {
      LocateDependsOnIds(a[..|a| - 1], b[..|b| - 1], id);
    }
  }

  /** t's holds are those of s with some pending ones resolved. */
  ghost predicate Restatused(s: seq<Hold>, t: seq<Hold>) {
    && |t| == |s|
    && forall i :: 0 <= i < |s| ==>
      t[i] == s[i].(status := t[i].status) && (t[i] == s[i] || s[i].status == Pending)
  }

  lemma RestatusKeepsLinks(s: State, t: State)
    requires LinksOk(s) && t == s.(holds := t.holds) && Restatused(s.holds, t.holds)
    ensures LinksOk(t)
  {
    hide LinksDistinct;
    forall i | 0 <= i < |t.holds| && t.holds[i].id in t.settlements
      ensures LinkOk(t, i)
    {
      assert LinkOk(s, i);
    }
    forall id | id in t.settlements
      ensures Locate(t.holds, id).Some?
    {
      LocateDependsOnIds(s.holds, t.holds, id);
    }
  }

  /** Resolving pending holds keeps every reference and link. */
  lemma RestatusKeepsIntegrity(s: State, t: State)
    requires Integrity(s) && t == s.(holds := t.holds) && Restatused(s.holds, t.holds)
    ensures Integrity(t)
  {
    hide LinksOk, Forest;
    RestatusKeepsLinks(s, t);
  }

  lemma InsertHoldKeepsKeys(holds: seq<Hold>, hold: Hold, runs: Runs, leases: map<Id, Lease>)
    requires UniqueHolds(holds) && HoldsReferTo(holds, runs, leases)
    requires Locate(holds, hold.id) == None && hold.run in runs
    requires hold.lease.Some? ==> hold.lease.value in leases
    ensures UniqueHolds(holds + [hold]) && HoldsReferTo(holds + [hold], runs, leases)
  {
  }

  lemma InsertHoldKeepsLinks(s: State, hold: Hold, fits: bool)
    requires LinksOk(s) && Locate(s.holds, hold.id) == None
    ensures LinksOk(InsertHold(s, hold, fits)) && hold.id !in s.settlements
  {
    hide LinksDistinct;
    var t := InsertHold(s, hold, fits);
    assert t.holds == s.holds + [hold] && t.ledger == s.ledger && t.settlements == s.settlements;
    assert t.holds[..|t.holds| - 1] == s.holds;
    forall i | 0 <= i < |t.holds| && t.holds[i].id in t.settlements
      ensures LinkOk(t, i)
    {
      assert LinkOk(s, i);
    }
  }

  lemma InsertHoldKeepsIntegrity(s: State, hold: Hold, fits: bool)
    requires Integrity(s) && Locate(s.holds, hold.id) == None && hold.run in s.runs
    requires hold.lease.Some? ==> hold.lease.value in s.leases
    ensures Integrity(InsertHold(s, hold, fits)) && hold.id !in s.settlements
  {
    hide Forest, UniqueHolds, HoldsReferTo, LinksOk;
    InsertHoldKeepsKeys(s.holds, hold, s.runs, s.leases);
    InsertHoldKeepsLinks(s, hold, fits);
  }

  lemma AppendUnreservedKeepsIntegrity(s: State, row: Ledger.Row)
    requires Integrity(s) && row.run in s.runs
    ensures Integrity(AppendUnreserved(s, row))
  {
    var t := AppendUnreserved(s, row);
    forall i | 0 <= i < |t.holds| && t.holds[i].id in t.settlements
      ensures LinkOk(t, i)
    {
      assert LinkOk(s, i);
    }
  }

  lemma NewLinkIsDistinct(holds: seq<Hold>, settlements: map<Id, nat>, entries: nat, id: Id)
    requires LinksDistinct(settlements) && LinksRefer(holds, settlements, entries)
    ensures LinksDistinct(settlements[id := entries + 1])
  {
  }

  lemma ChargeKeepsHoldLinks(s: State, i: nat, row: Ledger.Row, resolve: bool)
    requires UniqueHolds(s.holds) && HoldLinksOk(s) && i < |s.holds| && s.holds[i].id !in s.settlements
    requires row.run == s.holds[i].run && (resolve || s.holds[i].status == Expired)
    ensures HoldLinksOk(Charge(s, i, row, resolve))
  {
    hide Charge;
    ChargeParts(s, i, row, resolve);
    var t := Charge(s, i, row, resolve);
    forall j | 0 <= j < |t.holds| && t.holds[j].id in t.settlements
      ensures LinkOk(t, j)
    {
      if j != i {
        assert s.holds[j].id != s.holds[i].id && t.holds[j] == s.holds[j];
        assert LinkOk(s, j);
      }
    }
  }

  lemma ChargeKeepsLinks(s: State, i: nat, row: Ledger.Row, resolve: bool)
    requires Integrity(s) && i < |s.holds| && s.holds[i].id !in s.settlements
    requires row.run == s.holds[i].run && (resolve || s.holds[i].status == Expired)
    ensures LinksOk(Charge(s, i, row, resolve))
  {
    hide Charge, HoldLinksOk, LinksDistinct, Locate;
    ChargeParts(s, i, row, resolve);
    var t := Charge(s, i, row, resolve);
    ChargeKeepsHoldLinks(s, i, row, resolve);
    NewLinkIsDistinct(s.holds, s.settlements, |s.ledger|, s.holds[i].id);
    forall a | a in t.settlements
      ensures Locate(t.holds, a).Some?
    {
      LocateDependsOnIds(s.holds, t.holds, a);
      LocateIs(s.holds, i);
    }
  }

  lemma ChargeKeepsIntegrity(s: State, i: nat, row: Ledger.Row, resolve: bool)
    requires Integrity(s) && i < |s.holds| && s.holds[i].id !in s.settlements
    requires row.run == s.holds[i].run && (resolve || s.holds[i].status == Expired)
    ensures Integrity(Charge(s, i, row, resolve))
  {
    hide Charge, LinksOk, Forest;
    ChargeParts(s, i, row, resolve);
    ChargeKeepsLinks(s, i, row, resolve);
    var t := Charge(s, i, row, resolve);
    assert forall j :: 0 <= j < |t.holds| ==> t.holds[j] == s.holds[j].(status := t.holds[j].status);
  }
}
