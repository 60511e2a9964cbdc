/** What holds over every sequence of store calls. */
module Histories {
  import opened Wrappers
  import opened Int64
  import opened Sums
  import opened Hierarchy
  import opened Tables
  import opened Changes
  import opened Budgets
  import opened Outcomes
  import opened BudgetStore
  import Billing
  import Ledger

  datatype Call =
    | CreateRun(runId: Id, principal: Id, parent: Option<Id>, budget: Nanos, status: RunStatus)
    | CloseRun(closing: Id)
    | CreateLease(leaseId: Id, leaseRun: Id, tokenHash: string, ceiling: Nanos)
    | TryReserve(r: Request, enforce: bool)
    | ResolveReservation(id: Id, to: HoldStatus)
    | ExpirePending(at: Instant)
    | AppendLedger(e: Ledger.Entry, now: Ledger.Time)
    | SettleReservation(id: Id, e: Ledger.Entry, now: Ledger.Time)

  /** t are the tables after the call on s, as the store's methods promise. */
  ghost predicate Answers(digest: string -> string, s: State, call: Call, t: State)
    requires Integrity(s)
  {
    match call
    case CreateRun(id, principal, parent, budget, status) =>
      if Creatable(s, id, principal, parent, budget)
      then t == InsertRun(s, id, Run(principal, parent, budget, status, |s.runs|)) else t == s
    case CloseRun(id) => t == if id in s.runs then CloseRow(s, id) else s
    case CreateLease(id, run, tokenHash, ceiling) =>
      if Leasable(s, id, run, tokenHash, ceiling)
      then t == InsertLease(s, id, Lease(run, tokenHash, ceiling)) else t == s
    case TryReserve(r, enforce) => exists res :: Reserved(s, r, enforce, res, t)
    case ResolveReservation(id, to) =>
      var i := Locate(s.holds, id);
      t == if to != Pending && i.Some? && s.holds[i.value].status == Pending then Resolve(s, i.value, to) else s
    case ExpirePending(at) => t == Sweep(s, at)
    case AppendLedger(e, now) => Ledger.InRange(e) && exists res :: Appended(digest, s, e, now, res, t)
    case SettleReservation(id, e, now) => Ledger.InRange(e) && exists res :: Charged(digest, s, id, e, now, res, t)
  }

  /** Every transaction of the store answers as the histories below have it. */
  method Perform(store: Store, call: Call)
    requires store.Valid() && (call.AppendLedger? || call.SettleReservation? ==> Ledger.InRange(call.e))
    modifies store
    ensures store.Valid() && Integrity(old(store.Now()))
    ensures Answers(store.digest, old(store.Now()), call, store.Now())
  {
    hide Safe, Integrity, Reserved, Appended, Charged, Ledger.InRange, Creatable, Leasable;
    SafeIsForest(store.digest, store.Now());
    match call {
      case CreateRun(id, principal, parent, budget, status) =>
        var _ := store.CreateRun(id, principal, parent, budget, status);
      case CloseRun(id) => var _ := store.CloseRun(id);
      case CreateLease(id, run, tokenHash, ceiling) => var _ := store.CreateLease(id, run, tokenHash, ceiling);
      case TryReserve(r, enforce) => var _ := store.TryReserve(r, enforce);
      case ResolveReservation(id, to) => var _ := store.ResolveReservation(id, to);
      case ExpirePending(at) => var _ := store.ExpirePendingReservations(at);
      case AppendLedger(e, now) => var _ := store.AppendLedger(e, now);
      case SettleReservation(id, e, now) => var _ := store.SettleReservation(id, e, now);
    }
  }

  /** The tables before and after each call, from an empty store. */
  ghost predicate History(digest: string -> string, calls: seq<Call>, states: seq<State>) {
    && |states| == |calls| + 1 && states[0] == EMPTY
    && forall i :: 0 <= i < |calls| ==> Integrity(states[i]) ==> Answers(digest, states[i], calls[i], states[i + 1])
  }

  /** An enabled change that resolves exactly the charged holds that are pending, as one transaction does. */
  ghost predicate Atomic(digest: string -> string, s: State, c: Change)
    requires Integrity(s)
  {
    Enabled(digest, s, c) && (c.Charging? ==> (c.resolve <==> s.holds[c.i].status == Pending))
  }

  /** Every call either leaves the tables alone or commits one change. */
  ghost predicate Commits(digest: string -> string, s: State, t: State)
    requires Integrity(s)
  {
    t == s || exists c :: Atomic(digest, s, c) && t == Apply(s, c)
  }

  lemma CommittedChange(digest: string -> string, s: State, t: State) returns (c: Change)
    requires Integrity(s) && Commits(digest, s, t) && t != s
    ensures Atomic(digest, s, c) && t == Apply(s, c)
  {
    c :| Atomic(digest, s, c) && t == Apply(s, c);
  }

  lemma EnabledBy(digest: string -> string, s: State, c: Change)
    requires Integrity(s) && Atomic(digest, s, c)
    ensures Enabled(digest, s, c)
  {
  }

  lemma CommitsBy(digest: string -> string, s: State, c: Change, t: State)
    requires Integrity(s) && Atomic(digest, s, c) && t == Apply(s, c)
    ensures Commits(digest, s, t)
  {
  }

  lemma ReserveCommits(digest: string -> string, s: State, r: Request, enforce: bool, res: Result<Decision, Error>,
                       t: State)
    requires Safe(digest, s) && Integrity(s) && Reserved(s, r, enforce, res, t)
    ensures Commits(digest, s, t)
  {
    hide Safe, Enabled, Decided, Decidable;
    if res.Ok? && res.value.allowed {
      DecidedHasRoom(digest, s, r, enforce, res.value);
      CommitsBy(digest, s, NewHold(HoldOf(r), !res.value.wouldBlock), t);
    }
  }

  lemma ChargeCommits(digest: string -> string, s: State, i: nat, e: Ledger.Entry, now: Ledger.Time,
                      res: Result<Ledger.Entry, Error>, t: State)
    requires Integrity(s) && Ledger.InRange(e) && i < |s.holds| && s.holds[i].id !in s.settlements
    requires e.run == s.holds[i].run && s.holds[i].status in {Pending, Expired}
    requires ChargedAt(digest, s, i, e, now, res, t)
    ensures Commits(digest, s, t)
  {
    hide Safe, Enabled, Integrity, Appendable, SealedEntry, AppendFault, Charge, Ledger.RowOf, Ledger.InRange;
    if res.Ok? {
      ChargeEnabled(digest, s, i, e, now);
      CommitsBy(digest, s, Charging(i, Ledger.RowOf(res.value), s.holds[i].status == Pending), t);
    }
  }

  lemma SettleCommits(digest: string -> string, s: State, id: Id, e: Ledger.Entry, now: Ledger.Time,
                      res: Result<Ledger.Entry, Error>, t: State)
    requires Integrity(s) && Ledger.InRange(e) && Charged(digest, s, id, e, now, res, t)
    ensures Commits(digest, s, t)
  {
    hide ChargedAt, Ledger.Scan, Ledger.InRange, Commits;
    if id !in s.settlements && Locate(s.holds, id).Some? {
      var i := Locate(s.holds, id).value;
      if e.run == s.holds[i].run && s.holds[i].status in {Pending, Expired} {
        ChargeCommits(digest, s, i, e, now, res, t);
      } else {
        NoChange(digest, s);
      }
    } else {
      NoChange(digest, s);
    }
  }

  lemma NoChange(digest: string -> string, s: State)
    requires Integrity(s)
    ensures Commits(digest, s, s)
  {
  }

  lemma AppendCommits(digest: string -> string, s: State, e: Ledger.Entry, now: Ledger.Time,
                      res: Result<Ledger.Entry, Error>, t: State)
    requires Integrity(s) && Ledger.InRange(e) && Appended(digest, s, e, now, res, t)
    ensures Commits(digest, s, t)
  {
    hide Safe, Enabled, Integrity, Appendable, SealedEntry, AppendFault, AppendUnreserved, Ledger.RowOf, Ledger.InRange;
    if res.Ok? {
      AppendEnabled(digest, s, e, now);
      CommitsBy(digest, s, Appending(Ledger.RowOf(res.value)), t);
    }
  }

  lemma CallCommits(digest: string -> string, s: State, call: Call, t: State)
    requires Safe(digest, s) && Integrity(s) && Answers(digest, s, call, t)
    ensures Commits(digest, s, t)
  {
    hide Safe, Integrity, Commits, Reserved, Appended, Charged, Ledger.InRange;
    SafeIsForest(digest, s);
    if t == s {
      NoChange(digest, s);
      return;
    }
    match call
    case CreateRun(id, principal, parent, budget, status) =>
      CommitsBy(digest, s, NewRun(id, Run(principal, parent, budget, status, |s.runs|)), t);
    case CloseRun(id) => CommitsBy(digest, s, Closing(id), t);
    case CreateLease(id, run, tokenHash, ceiling) =>
      CommitsBy(digest, s, NewLease(id, Lease(run, tokenHash, ceiling)), t);
    case TryReserve(r, enforce) =>
      var res :| Reserved(s, r, enforce, res, t);
      ReserveCommits(digest, s, r, enforce, res, t);
    case ResolveReservation(id, to) => CommitsBy(digest, s, Resolution(Locate(s.holds, id).value, to), t);
    case ExpirePending(at) => CommitsBy(digest, s, Sweeping(at), t);
    case AppendLedger(e, now) =>
      var res :| Appended(digest, s, e, now, res, t);
      AppendCommits(digest, s, e, now, res, t);
    case SettleReservation(id, e, now) =>
      var res :| Charged(digest, s, id, e, now, res, t);
      SettleCommits(digest, s, id, e, now, res, t);
  }

  lemma EmptyIsSafe(digest: string -> string)
    ensures Safe(digest, EMPTY)
  {
  }

  lemma StepKeepsSafe(digest: string -> string, s: State, t: State)
    requires Safe(digest, s) && Integrity(s) && Commits(digest, s, t)
    ensures Safe(digest, t)
  {
    hide Safe, Integrity, Enabled, Commits;
    if t != s {
      var c := CommittedChange(digest, s, t);
      ChangeKeepsSafe(digest, s, c);
    }
  }

  /** Every reachable state keeps every reference, budget, lease ceiling and hash link. */
  lemma {:induction false} ReachableIsSafe(digest: string -> string, calls: seq<Call>, states: seq<State>, i: nat)
    requires History(digest, calls, states) && i < |states|
    ensures Safe(digest, states[i]) && Integrity(states[i])
    ensures i < |calls| ==> Commits(digest, states[i], states[i + 1])
  {
    hide Safe, Integrity, Commits, Answers;
    if i == 0 {
      EmptyIsSafe(digest);
    } else {
      ReachableIsSafe(digest, calls, states, i - 1);
      StepKeepsSafe(digest, states[i - 1], states[i]);
    }
    SafeIsForest(digest, states[i]);
    if i < |calls| {
      CallCommits(digest, states[i], calls[i], states[i + 1]);
    }
  }

  /**
   * Hierarchical budget safety: in every reachable state, what the subtree of a budgeted run has spent
   * and holds is at most its budget and what was waived in that subtree.
   */
  lemma BudgetsHold(digest: string -> string, calls: seq<Call>, states: seq<State>, i: nat, id: Id)
    requires History(digest, calls, states) && i < |states|
    requires id in states[i].runs && states[i].runs[id].budget > 0
    ensures var s := states[i];
      Forest(s.runs) && Spent(s, id) + Held(s, id) <= s.runs[id].budget + Waived(s, id)
  {
    hide History, LinksOk;
    ReachableIsSafe(digest, calls, states, i);
  }

  /** The same for leases: joined cost and pending holds stay within a positive ceiling and its waivers. */
  lemma LeaseCeilingsHold(digest: string -> string, calls: seq<Call>, states: seq<State>, i: nat, lease: Id)
    requires History(digest, calls, states) && i < |states|
    requires lease in states[i].leases && states[i].leases[lease].ceiling > 0
    ensures var s := states[i];
      LeaseSpent(s, lease) + LeaseHeld(s, lease) <= s.leases[lease].ceiling + Total(s.waivers, LeaseWaivedBy(lease))
  {
    hide History, LinksOk;
    ReachableIsSafe(digest, calls, states, i);
  }

  /** Every reachable ledger is numbered from one and verifies after it is scanned back. */
  lemma LedgersVerify(digest: string -> string, calls: seq<Call>, states: seq<State>, i: nat)
    requires History(digest, calls, states) && i < |states|
    ensures Ledger.Readable(states[i].ledger)
    ensures Ledger.Linked(digest, Ledger.ScanAll(states[i].ledger))
      && Ledger.AllDetermined(Ledger.ScanAll(states[i].ledger))
    ensures forall k :: 0 <= k < |states[i].ledger| ==> Ledger.ScanAll(states[i].ledger)[k].seqNo == k + 1
  {
    hide History, Ledger.Linked, Ledger.AllDetermined, Ledger.Scan, Integrity, BudgetSafe, LeasesSafe;
    ReachableIsSafe(digest, calls, states, i);
    Ledger.StoredChainVerifies(digest, states[i].ledger);
  }

  // What a commit never undoes

  ghost predicate HoldsPersist(a: seq<Hold>, b: seq<Hold>) {
    |a| <= |b| && forall i :: 0 <= i < |a| ==> b[i] == a[i].(status := b[i].status)
  }

  /** No row is removed, and none is rewritten but for the status of runs and holds. */
  ghost predicate Persists(s: State, t: State) {
    && Extends(s.runs, t.runs) && HoldsPersist(s.holds, t.holds)
    && (forall id :: id in s.leases ==> id in t.leases && t.leases[id] == s.leases[id])
    && (forall id :: id in s.settlements ==> id in t.settlements && t.settlements[id] == s.settlements[id])
    && s.ledger <= t.ledger
  }

  ghost predicate StatusGrows(a: HoldStatus, b: HoldStatus) {
    a == b || a == Pending
  }

  ghost predicate StatusesGrow(a: seq<Hold>, b: seq<Hold>) {
    forall i :: 0 <= i < |a| && i < |b| ==> StatusGrows(a[i].status, b[i].status)
  }

  ghost predicate Grows(s: State, t: State) {
    Persists(s, t) && StatusesGrow(s.holds, t.holds)
  }

  lemma PersistsTransitively(s: State, t: State, u: State)
    requires Persists(s, t) && Persists(t, u)
    ensures Persists(s, u)
  {
    forall i | 0 <= i < |s.holds|
      ensures u.holds[i] == s.holds[i].(status := u.holds[i].status)
    {
      assert t.holds[i] == s.holds[i].(status := t.holds[i].status);
    }
  }

  lemma GrowsTransitively(s: State, t: State, u: State)
    requires Grows(s, t) && Grows(t, u)
    ensures Grows(s, u)
  {
    PersistsTransitively(s, t, u);
    HoldCount(s, t);
    hide Persists;
    assert forall i :: 0 <= i < |s.holds| && i < |u.holds| ==> StatusGrows(t.holds[i].status, u.holds[i].status);
  }

  lemma HoldCount(s: State, t: State)
    requires Persists(s, t)
    ensures |s.holds| <= |t.holds|
  {
  }

  lemma CommitGrows(digest: string -> string, s: State, t: State)
    requires Integrity(s) && Commits(digest, s, t)
    ensures Grows(s, t) && Integrity(t)
  {
    hide LinksOk, Forest, HoldsReferTo, UniqueHolds, Sealed, Charge, Commits, Enabled, Apply;
    if t != s {
      var c := CommittedChange(digest, s, t);
      ChangeKeepsIntegrity(digest, s, c);
      ChangePersists(digest, s, c);
      StatusGrowsBy(digest, s, c);
    }
  }

  lemma ChangePersists(digest: string -> string, s: State, c: Change)
    requires Integrity(s) && Enabled(digest, s, c)
    ensures CanApply(s, c) && Persists(s, Apply(s, c))
  {
    hide LinksOk, Forest, HoldsReferTo, UniqueHolds, Sealed, Charge, ChainActive, RoomOnChain, LeaseRoom;
    if c.NewRun? {
      InsertRunKeepsForest(s.runs, c.id, c.run);
    } else if c.Closing? {
      CloseRunKeepsForest(s.runs, c.id);
    } else if c.Charging? {
      ChargeParts(s, c.i, c.row, c.resolve);
    }
  }

  lemma StatusGrowsBy(digest: string -> string, s: State, c: Change)
    requires Integrity(s) && Atomic(digest, s, c)
    ensures StatusesGrow(s.holds, Apply(s, c).holds)
  {
    hide LinksOk, Forest, HoldsReferTo, UniqueHolds, Sealed, Charge, ChainActive, RoomOnChain, LeaseRoom;
    if c.Charging? {
      ChargeParts(s, c.i, c.row, c.resolve);
    }
  }

  lemma {:induction false} HistoryGrows(digest: string -> string, calls: seq<Call>, states: seq<State>, i: nat, j: nat)
    requires History(digest, calls, states) && i <= j < |states|
    ensures Grows(states[i], states[j]) && Integrity(states[j])
    decreases j
  {
    hide History, Grows, Integrity, Commits, Safe;
    ReachableIsSafe(digest, calls, states, j);
    if i == j {
      GrowsReflexively(states[i]);
    } else {
      HistoryLength(digest, calls, states);
      HistoryGrows(digest, calls, states, i, j - 1);
      ReachableIsSafe(digest, calls, states, j - 1);
      CommitGrows(digest, states[j - 1], states[j]);
      GrowsTransitively(states[i], states[j - 1], states[j]);
    }
  }

  lemma GrowsReflexively(s: State)
    ensures Grows(s, s)
  {
  }

  lemma HistoryLength(digest: string -> string, calls: seq<Call>, states: seq<State>)
    requires History(digest, calls, states)
    ensures |states| == |calls| + 1
  {
  }

  /** t still has hold h of s, and the charge s joined to it, on the same ledger row. */
  ghost predicate ChargeKept(s: State, t: State, h: nat)
    requires h < |s.holds|
  {
    var id := s.holds[h].id;
    && |s.holds| <= |t.holds| && t.holds[h].id == id
    && (id in s.settlements ==>
          && id in t.settlements && t.settlements[id] == s.settlements[id]
          && 0 < s.settlements[id] <= |s.ledger| <= |t.ledger|
          && t.ledger[s.settlements[id] - 1] == s.ledger[s.settlements[id] - 1])
  }

  /** A hold that was released, or marked settled without a charge. */
  ghost predicate Unchargeable(s: State, h: nat)
    requires h < |s.holds|
  {
    s.holds[h].status in {Released, Settled} && s.holds[h].id !in s.settlements
  }

  lemma GrowthKeepsCharge(s: State, t: State, h: nat)
    requires Integrity(s) && Integrity(t) && Persists(s, t) && h < |s.holds|
    ensures ChargeKept(s, t, h) && LinksDistinct(t.settlements)
  {
    hide Forest, HoldsReferTo, UniqueHolds;
  }

  /**
   * Exactly-once charging: a charge stays joined to the same ledger row for ever, no row is joined to two
   * reservations, and a hold that was released, or marked settled without a charge, is never charged.
   */
  lemma {:induction false} ChargedOnce(digest: string -> string, calls: seq<Call>, states: seq<State>, i: nat, j: nat,
                                       h: nat)
    requires History(digest, calls, states) && i <= j < |states| && h < |states[i].holds|
    ensures ChargeKept(states[i], states[j], h) && LinksDistinct(states[j].settlements)
    ensures Unchargeable(states[i], h) ==> Unchargeable(states[j], h)
    decreases j
  {
    hide History, Commits, Integrity, Persists, StatusesGrow, LinksDistinct, Unchargeable;
    HistoryGrows(digest, calls, states, i, i);
    HistoryGrows(digest, calls, states, i, j);
    GrowthKeepsCharge(states[i], states[j], h);
    if i < j {
      HistoryLength(digest, calls, states);
      ChargedOnce(digest, calls, states, i, j - 1, h);
      ReachableIsSafe(digest, calls, states, j - 1);
      if Unchargeable(states[i], h) {
        UnchargeableStays(digest, states[j - 1], states[j], h);
      }
    }
  }

  lemma UnchargeableStays(digest: string -> string, s: State, t: State, h: nat)
    requires Integrity(s) && Commits(digest, s, t) && h < |s.holds| && Unchargeable(s, h)
    ensures h < |t.holds| && Unchargeable(t, h)
  {
    hide Commits, Enabled, Forest, LinksOk, HoldsReferTo, Charge;
    if t != s {
      var c := CommittedChange(digest, s, t);
      ChangePersists(digest, s, c);
      StatusGrowsBy(digest, s, c);
      if c.Charging? {
        ChargedWasOpen(digest, s, c);
        ChargeParts(s, c.i, c.row, c.resolve);
      }
    }
  }

  lemma ChargedWasOpen(digest: string -> string, s: State, c: Change)
    requires Integrity(s) && Atomic(digest, s, c) && c.Charging?
    ensures c.i < |s.holds| && s.holds[c.i].status in {Pending, Expired}
  {
    hide Forest, LinksOk, HoldsReferTo, UniqueHolds, Sealed;
  }

  lemma FirstCharge(digest: string -> string, s: State, id: Id, e: Ledger.Entry, now: Ledger.Time, first: Ledger.Entry,
                    t: State)
    requires Integrity(s) && Ledger.InRange(e) && id !in s.settlements && Charged(digest, s, id, e, now, Ok(first), t)
    ensures 0 <= first.inputTokens && 0 <= first.outputTokens && 0 <= first.cost
    ensures t.ledger == s.ledger + [Ledger.RowOf(first)] && t.settlements == s.settlements[id := |t.ledger|]
    ensures Ledger.Scan(Ledger.RowOf(first)) == Some(Ledger.Restored(first))
  {
    hide Charge, ChargedAt, Integrity, SealedEntry, Ledger.RowOf, Ledger.Scan, Ledger.InRange, Ledger.Restored, Locate;
    var i := Locate(s.holds, id).value;
    LocatedId(s.holds, id);
    ChargeSealed(digest, s, i, e, now, first, t);
    ChargeParts(s, i, Ledger.RowOf(first), s.holds[i].status == Pending);
    SealedInRange(digest, s.ledger, e, now);
    Ledger.ScanRestores(first);
  }

  lemma ChargeSealed(digest: string -> string, s: State, i: nat, e: Ledger.Entry, now: Ledger.Time, first: Ledger.Entry,
                     t: State)
    requires i < |s.holds| && ChargedAt(digest, s, i, e, now, Ok(first), t)
    ensures first == SealedEntry(digest, s.ledger, e, now) && Ledger.EntryOk(e)
    ensures Billing.UsageOk(Ledger.ItemizedUsage(first))
    ensures 0 <= first.inputTokens && 0 <= first.outputTokens && 0 <= first.cost
    ensures t == Charge(s, i, Ledger.RowOf(first), s.holds[i].status == Pending)
  {
    hide Charge, Ledger.RowOf, Ledger.ItemizedUsage, Billing.UsageOk;
  }

  lemma SealedInRange(digest: string -> string, ledger: seq<Ledger.Row>, e: Ledger.Entry, now: Ledger.Time)
    requires Ledger.InRange(e) && Ledger.EntryOk(e)
    ensures Ledger.InRange(SealedEntry(digest, ledger, e, now))
  {
    hide Ledger.Seal, Ledger.ItemizedUsage;
    var prepared := Ledger.Prepared(e, now, |ledger| + 1);
    PreparedUsage(e, now, |ledger| + 1);
    Ledger.SealedIs(digest, prepared, HeadOf(ledger));
  }

  /**
   * However much later, and whatever it then asks for, settling a charged reservation again returns the
   * first entry as stored and changes nothing.
   */
  lemma SettledAgain(digest: string -> string, calls: seq<Call>, states: seq<State>, i: nat, j: nat,
                     first: Ledger.Entry, again: Result<Ledger.Entry, Error>)
    requires History(digest, calls, states) && i < j < |calls|
    requires calls[i].SettleReservation? && calls[j].SettleReservation? && calls[j].id == calls[i].id
    requires Integrity(states[i]) && calls[i].id !in states[i].settlements
    requires Charged(digest, states[i], calls[i].id, calls[i].e, calls[i].now, Ok(first), states[i + 1])
    requires Integrity(states[j]) && Charged(digest, states[j], calls[j].id, calls[j].e, calls[j].now, again,
                                             states[j + 1])
    ensures states[j + 1] == states[j] && again == Ok(Ledger.Restored(first))
  {
    hide Integrity, Charged, Ledger.RowOf, Ledger.Scan, Ledger.InRange, Ledger.Restored;
    assert Answers(digest, states[i], calls[i], states[i + 1]);
    FirstCharge(digest, states[i], calls[i].id, calls[i].e, calls[i].now, first, states[i + 1]);
    hide History;
    HistoryGrows(digest, calls, states, i + 1, j);
    ChargedBefore(digest, states[j], calls[j].id, calls[j].e, calls[j].now, again, states[j + 1]);
  }

  lemma ChargedBefore(digest: string -> string, s: State, id: Id, e: Ledger.Entry, now: Ledger.Time,
                      res: Result<Ledger.Entry, Error>, t: State)
    requires Integrity(s) && id in s.settlements && Charged(digest, s, id, e, now, res, t)
    ensures t == s && 0 < s.settlements[id] <= |s.ledger|
    ensures var back := Ledger.Scan(s.ledger[s.settlements[id] - 1]);
      res == if back.Some? then Ok(back.value) else Err(Invalid)
  {
    hide Forest, HoldsReferTo, UniqueHolds, Ledger.Scan, ChargedAt, Locate;
  }

  /** Conservation: without direct appends, every ledger row is the charge of exactly one reservation. */
  ghost predicate EveryRowLinked(s: State) {
    forall k :: 1 <= k <= |s.ledger| ==> Joined(s.settlements, k)
  }

  ghost predicate Joined(settlements: map<Id, nat>, k: nat) {
    exists id :: id in settlements && settlements[id] == k
  }

  lemma ChargeKeepsLinked(s: State, i: nat, row: Ledger.Row, resolve: bool)
    requires i < |s.holds| && s.holds[i].id !in s.settlements && EveryRowLinked(s)
    ensures EveryRowLinked(Charge(s, i, row, resolve))
  {
    hide Charge;
    ChargeParts(s, i, row, resolve);
    var t := Charge(s, i, row, resolve);
    forall k | 1 <= k <= |t.ledger|
      ensures Joined(t.settlements, k)
    {
      if k <= |s.ledger| {
        assert Joined(s.settlements, k);
        var id :| id in s.settlements && s.settlements[id] == k;
        assert t.settlements[id] == k;
      } else {
        assert t.settlements[s.holds[i].id] == k;
      }
    }
  }

  lemma CallKeepsLinked(digest: string -> string, s: State, call: Call, t: State)
    requires Integrity(s) && Answers(digest, s, call, t) && !call.AppendLedger? && EveryRowLinked(s)
    ensures EveryRowLinked(t)
  {
    hide Charge, Integrity, Appendable, SealedEntry, AppendFault, Ledger.Scan, Ledger.RowOf, Ledger.InRange, ChargedAt,
      Decided, Decidable, ReserveFails, EveryRowLinked, Locate;
    if t.ledger == s.ledger && t.settlements == s.settlements {
      LinkedDependsOnLedger(s, t);
    } else if call.SettleReservation? {
      var res :| Charged(digest, s, call.id, call.e, call.now, res, t);
      var i := Locate(s.holds, call.id).value;
      LocatedId(s.holds, call.id);
      ChargedIs(digest, s, i, call.e, call.now, res, t);
      ChargeKeepsLinked(s, i, Ledger.RowOf(res.value), s.holds[i].status == Pending);
    }
  }

  lemma LocatedId(holds: seq<Hold>, id: Id)
    requires Locate(holds, id).Some?
    ensures Locate(holds, id).value < |holds| && holds[Locate(holds, id).value].id == id
  {
  }

  lemma ChargedIs(digest: string -> string, s: State, i: nat, e: Ledger.Entry, now: Ledger.Time,
                  res: Result<Ledger.Entry, Error>, t: State)
    requires i < |s.holds| && ChargedAt(digest, s, i, e, now, res, t) && t != s
    ensures res.Ok? && 0 <= res.value.inputTokens && 0 <= res.value.outputTokens && 0 <= res.value.cost
    ensures res.value.cost == e.cost && t == Charge(s, i, Ledger.RowOf(res.value), s.holds[i].status == Pending)
  {
    hide Charge, Ledger.RowOf;
  }

  lemma LinkedDependsOnLedger(s: State, t: State)
    requires t.ledger == s.ledger && t.settlements == s.settlements && EveryRowLinked(s)
    ensures EveryRowLinked(t)
  {
  }

  lemma {:induction false} EveryChargeHasItsHold(digest: string -> string, calls: seq<Call>, states: seq<State>, i: nat)
    requires History(digest, calls, states) && i < |states|
    requires forall k :: 0 <= k < i ==> !calls[k].AppendLedger?
    ensures EveryRowLinked(states[i])
  {
    hide EveryRowLinked, Integrity, Safe, Answers;
    if i == 0 {
      EmptyIsLinked();
    } else {
      EveryChargeHasItsHold(digest, calls, states, i - 1);
      ReachableIsSafe(digest, calls, states, i - 1);
      CallKeepsLinked(digest, states[i - 1], calls[i - 1], states[i]);
    }
  }

  lemma EmptyIsLinked()
    ensures EveryRowLinked(EMPTY)
  {
  }

  // Closed runs

  /** Every hold and lease of t that s did not have is on a run whose chain avoids `id`. */
  ghost predicate NoneNewUnder(s: State, t: State, id: Id)
    requires Forest(t.runs)
  {
    && (forall h :: |s.holds| <= h < |t.holds| ==> t.holds[h].run in t.runs && id !in Chain(t.runs, t.holds[h].run))
    && (forall l :: l in t.leases && l !in s.leases ==>
          t.leases[l].run in t.runs && id !in Chain(t.runs, t.leases[l].run))
  }

  /**
   * Once a run is closed, no call ever adds a hold or a lease under it: every later one on a chain that
   * passes through it was already there, even if its run was created afterwards.
   */
  lemma {:induction false} ClosedForGood(digest: string -> string, calls: seq<Call>, states: seq<State>, i: nat, j: nat,
                                         id: Id)
    requires History(digest, calls, states) && i <= j < |states|
    requires id in states[i].runs && states[i].runs[id].status == Closed
    ensures Forest(states[j].runs) && NoneNewUnder(states[i], states[j], id)
    decreases j
  {
    hide History, Commits, Integrity, Persists, StatusesGrow, NoneNewUnder, Safe;
    HistoryGrows(digest, calls, states, i, j);
    IntegrityIsForest(states[j]);
    if i == j {
      NoneNewAtOnce(states[i], id);
    } else {
      HistoryLength(digest, calls, states);
      ClosedForGood(digest, calls, states, i, j - 1, id);
      HistoryGrows(digest, calls, states, i, j - 1);
      ClosedStaysClosed(states[i], states[j - 1], id);
      ReachableIsSafe(digest, calls, states, j - 1);
      ClosedCommit(digest, states[i], states[j - 1], states[j], id);
    }
  }

  lemma IntegrityIsForest(s: State)
    requires Integrity(s)
    ensures Forest(s.runs)
  {
  }

  lemma ClosedStaysClosed(s: State, t: State, id: Id)
    requires Persists(s, t) && id in s.runs && s.runs[id].status == Closed
    ensures id in t.runs && t.runs[id].status == Closed
    ensures |s.holds| <= |t.holds| && forall l :: l in s.leases ==> l in t.leases
  {
  }

  lemma NoneNewAtOnce(s: State, id: Id)
    requires Forest(s.runs)
    ensures NoneNewUnder(s, s, id)
  {
  }

  lemma NotOnActiveChain(runs: Runs, run: Id, id: Id)
    requires Forest(runs) && run in runs && ChainActive(runs, run) && id in runs && runs[id].status == Closed
    ensures id !in Chain(runs, run)
  {
  }

  lemma ClosedCommit(digest: string -> string, s: State, t: State, u: State, id: Id)
    requires Integrity(t) && Commits(digest, t, u) && id in t.runs && t.runs[id].status == Closed
    requires |s.holds| <= |t.holds| && (forall l :: l in s.leases ==> l in t.leases) && NoneNewUnder(s, t, id)
    ensures Forest(u.runs) && NoneNewUnder(s, u, id)
  {
    hide Commits, Integrity, NoneNewUnder, Atomic, Enabled, Apply, CanApply;
    if u != t {
      var c := CommittedChange(digest, t, u);
      EnabledBy(digest, t, c);
      ClosedStep(digest, s, t, c, id);
    } else {
      IntegrityIsForest(t);
    }
  }

  lemma ClosedStep(digest: string -> string, s: State, t: State, c: Change, id: Id)
    requires Integrity(t) && Enabled(digest, t, c) && id in t.runs && t.runs[id].status == Closed
    requires |s.holds| <= |t.holds| && (forall l :: l in s.leases ==> l in t.leases) && NoneNewUnder(s, t, id)
    ensures CanApply(t, c) && Forest(Apply(t, c).runs) && NoneNewUnder(s, Apply(t, c), id)
  {
    hide LinksOk, Enabled, Charge, Chain, ChainActive, LeaseRoom, RoomOnChain;
    ChangePersists(digest, t, c);
    ChangeKeepsIntegrity(digest, t, c);
    NewHoldOrLease(digest, t, c);
    hide Apply, CanApply;
    var u := Apply(t, c);
    forall h | |s.holds| <= h < |u.holds|
      ensures u.holds[h].run in u.runs && id !in Chain(u.runs, u.holds[h].run)
    {
      if h < |t.holds| {
        assert u.holds[h].run == t.holds[h].run;
      } else {
        NotOnActiveChain(t.runs, u.holds[h].run, id);
      }
      ChainIsStable(t.runs, u.runs, u.holds[h].run);
    }
    forall l | l in u.leases && l !in s.leases
      ensures u.leases[l].run in u.runs && id !in Chain(u.runs, u.leases[l].run)
    {
      if l !in t.leases {
        NotOnActiveChain(t.runs, u.leases[l].run, id);
      }
      ChainIsStable(t.runs, u.runs, u.leases[l].run);
    }
  }

  /** A hold or lease that a change adds is on a run that existed, with every ancestor active. */
  lemma NewHoldOrLease(digest: string -> string, t: State, c: Change)
    requires Integrity(t) && Enabled(digest, t, c)
    ensures CanApply(t, c) && var u := Apply(t, c);
      && (forall h :: |t.holds| <= h < |u.holds| ==> u.holds[h].run in t.runs && ChainActive(t.runs, u.holds[h].run))
      && (forall l :: l in u.leases && l !in t.leases ==>
            u.leases[l].run in t.runs && ChainActive(t.runs, u.leases[l].run))
  {
    hide LinksOk, Forest, HoldsReferTo, UniqueHolds, Sealed, Charge, ChainActive, LeaseRoom, RoomOnChain;
    if c.Charging? {
      ChargeParts(t, c.i, c.row, c.resolve);
    }
  }

  // Discipline

  /** Enforced reservations, charges within their pending hold, and no append outside a reservation. */
  ghost predicate Disciplined(s: State, call: Call) {
    && (call.TryReserve? ==> call.enforce)
    && !call.AppendLedger?
    && (call.SettleReservation? && call.id !in s.settlements && Locate(s.holds, call.id).Some? ==>
          var hold := s.holds[Locate(s.holds, call.id).value];
          hold.status != Expired && (hold.status == Pending ==> call.e.cost <= hold.amount))
  }

  lemma DisciplineWaivesNothing(digest: string -> string, s: State, call: Call, t: State)
    requires Integrity(s) && Answers(digest, s, call, t) && Disciplined(s, call) && NothingWaived(s)
    ensures NothingWaived(t)
  {
    hide Charge, Integrity, Appendable, SealedEntry, AppendFault, Ledger.Scan, Ledger.InRange, ChargedAt,
      Decidable, ReserveFails, RunBlocks, LeaseBlocks, NothingBlocks, Locate;
    if t.waivers != s.waivers && call.SettleReservation? {
      var res :| Charged(digest, s, call.id, call.e, call.now, res, t);
      var i := Locate(s.holds, call.id).value;
      LocatedId(s.holds, call.id);
      ChargedIs(digest, s, i, call.e, call.now, res, t);
      ChargeParts(s, i, Ledger.RowOf(res.value), s.holds[i].status == Pending);
    }
  }

  lemma {:induction false} DisciplinedHistory(digest: string -> string, calls: seq<Call>, states: seq<State>, i: nat)
    requires History(digest, calls, states) && i < |states|
    requires forall k :: 0 <= k < i ==> Disciplined(states[k], calls[k])
    ensures NothingWaived(states[i])
  {
    hide Integrity, Safe, Answers, Disciplined;
    if i > 0 {
      DisciplinedHistory(digest, calls, states, i - 1);
      ReachableIsSafe(digest, calls, states, i - 1);
      DisciplineWaivesNothing(digest, states[i - 1], calls[i - 1], states[i]);
    }
  }

  /** After any disciplined history no budgeted run's subtree has spent and held more than the budget. */
  lemma NeverOverBudget(digest: string -> string, calls: seq<Call>, states: seq<State>, i: nat, id: Id)
    requires History(digest, calls, states) && i < |states|
    requires forall k :: 0 <= k < i ==> Disciplined(states[k], calls[k])
    requires id in states[i].runs && states[i].runs[id].budget > 0
    ensures Forest(states[i].runs)
    ensures Spent(states[i], id) + Held(states[i], id) <= states[i].runs[id].budget
  {
    hide History, Disciplined;
    BudgetsHold(digest, calls, states, i, id);
    DisciplinedHistory(digest, calls, states, i);
    ZeroTotal(states[i].waivers, WaivedBy(Subtree(states[i].runs, id)));
  }

  /** What a charge does to a run's spend and holds, to the nanodollar. */
  lemma ChargeMovesUsage(s: State, i: nat, row: Ledger.Row, id: Id)
    requires Integrity(s) && i < |s.holds| && row.run == s.holds[i].run && id in s.runs
    ensures var hold := s.holds[i];
      var t := Charge(s, i, row, hold.status == Pending);
      Forest(t.runs) && id in t.runs
      && Spent(t, id) + Held(t, id) == Spent(s, id) + Held(s, id)
         + (if id !in Chain(s.runs, hold.run) then 0
            else if hold.status == Pending then row.cost - hold.amount else row.cost)
  {
    hide Charge, LinksOk;
    var hold := s.holds[i];
    ChargeParts(s, i, row, hold.status == Pending);
    WalksAreDual(s.runs, id, hold.run);
    TotalOfAppend(s.ledger, row, SpentBy(Subtree(s.runs, id)));
    TotalOfUpdate(s.holds, i, hold.(status := Settled), HeldBy(Subtree(s.runs, id)));
  }
}
