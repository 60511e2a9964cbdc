/**
 * What an entry's ledger row holds, and which of it the hash covers (internal/ledger/entry.go,
 * internal/store/sqlite/sqlite.go).
 */
module Sealing {
  import opened Wrappers
  import opened Sums
  import opened Hierarchy
  import opened Tables
  import opened Changes
  import opened Budgets
  import opened Outcomes
  import opened Histories
  import Billing
  import Ledger
  import Text

  /** An entry without a version is sealed in the usage form, and one with a version keeps it. */
  function SealedVersion(e: Ledger.Entry): int {
    if e.hashVersion == 0 then 2 else e.hashVersion
  }

  /** The entry's own quantities without zeros, or those of its token summary. */
  function Quantities(e: Ledger.Entry): Billing.Usage {
    if e.usage == map[] then Billing.TokenUsage(e.inputTokens, 0, 0, 0, e.outputTokens) else Billing.Normalized(e.usage)
  }

  /** Once sealed in the usage form, quantities that are all zero count as none, and the token summary stands in. */
  function StoredQuantities(e: Ledger.Entry): Billing.Usage {
    if SealedVersion(e) >= 2 && Quantities(e) == map[] then Billing.TokenUsage(e.inputTokens, 0, 0, 0, e.outputTokens)
    else Quantities(e)
  }

  lemma QuantitiesAre(e: Ledger.Entry)
    ensures Quantities(e) == Ledger.ItemizedUsage(e)
  {
    if |e.usage| == 0 {
      assert e.usage == map[];
    }
  }

  /** Sealing fixes the version, itemizes the usage that the usage form hashes, and leaves the rest as it was. */
  lemma SealedIs(digest: string -> string, e: Ledger.Entry, prevHash: string)
    ensures var sealed := Ledger.Seal(digest, e, prevHash);
      && sealed.hashVersion == SealedVersion(e)
      && sealed.usage == (if SealedVersion(e) >= 2 then Quantities(e) else e.usage)
      && sealed.prevHash == prevHash && sealed.hash == Ledger.HashOf(digest, sealed, prevHash)
      && e == sealed.(hashVersion := e.hashVersion, usage := e.usage, prevHash := e.prevHash, hash := e.hash)
  {
    hide Billing.Canonical, Billing.TokenUsage, Text.Integer, Ledger.Netstrings;
    QuantitiesAre(e);
  }

  /** The stored time of an entry: its own, or the clock's if it has none. */
  function Created(e: Ledger.Entry, now: Ledger.Time): int {
    if e.createdAt.instant == 0 then now.instant else e.createdAt.instant
  }

  /** The row holds every column of the entry, reads back as it, and hashes what it reads back. */
  ghost predicate Carries(digest: string -> string, row: Ledger.Row, e: Ledger.Entry, now: Ledger.Time,
                          rows: seq<Ledger.Row>) {
    && row.seqNo == |rows| + 1
    && row.prevHash == (if rows == [] then Ledger.GENESIS_HASH else rows[|rows| - 1].hash)
    && row.run == e.run && row.principal == e.principal && row.provider == e.provider && row.model == e.model
    && row.inputTokens == e.inputTokens && row.outputTokens == e.outputTokens && row.cost == e.cost
    && row.externalId == e.externalId && row.pricingRevision == e.pricingRevision
    && row.hashVersion == SealedVersion(e)
    && var back := Ledger.Scan(row);
    && back.Some? && back.value.usage == StoredQuantities(e) && back.value.estimated == e.estimated
    && back.value.createdAt == Ledger.Time(Created(e, now), 0)
    && back.value.priceEffective == Ledger.Time(e.priceEffective.instant, 0)
    && Ledger.InRange(back.value) && row.hash == Ledger.HashOf(digest, back.value, row.prevHash)
  }

  lemma QuantitiesAgain(e: Ledger.Entry, sealed: Ledger.Entry)
    requires sealed.inputTokens == e.inputTokens && sealed.outputTokens == e.outputTokens
    requires sealed.usage == if SealedVersion(e) >= 2 then Quantities(e) else e.usage
    ensures Ledger.ItemizedUsage(sealed) == StoredQuantities(e)
  {
    hide Billing.TokenUsage;
    QuantitiesAre(sealed);
    QuantitiesAre(e);
    Ledger.ItemizedIsNormal(e);
  }

  lemma RestoredIs(sealed: Ledger.Entry)
    ensures var back := Ledger.Restored(sealed);
      && back.usage == Ledger.ItemizedUsage(sealed) && back.estimated == sealed.estimated
      && back.createdAt == Ledger.Time(sealed.createdAt.instant, 0)
      && back.priceEffective == Ledger.Time(sealed.priceEffective.instant, 0)
  {
  }

  lemma SealedCarries(digest: string -> string, rows: seq<Ledger.Row>, e: Ledger.Entry, now: Ledger.Time)
    requires Ledger.InRange(e) && Ledger.EntryOk(e) && 0 <= e.inputTokens && 0 <= e.outputTokens && 0 <= e.cost
    requires Billing.UsageOk(Ledger.ItemizedUsage(SealedEntry(digest, rows, e, now)))
    ensures var sealed := SealedEntry(digest, rows, e, now);
      && 0 <= sealed.inputTokens && 0 <= sealed.outputTokens && 0 <= sealed.cost
      && Carries(digest, Ledger.RowOf(sealed), e, now, rows) && Ledger.RowOf(sealed).hash == sealed.hash
  {
    var prepared, prev := Ledger.Prepared(e, now, |rows| + 1), HeadOf(rows);
    SealedIs(digest, prepared, prev);
    hide Ledger.HashOf, Ledger.Scan, Ledger.Seal, Billing.Canonical, Ledger.ItemizedUsage, StoredQuantities, Quantities,
      Ledger.Restored, Ledger.FormatTime, Ledger.OptionalTime, Ledger.InRange;
    var sealed := Ledger.Seal(digest, prepared, prev);
    PreparedQuantities(e, now, |rows| + 1);
    QuantitiesAgain(prepared, sealed);
    SealedInRange(digest, prepared, prev);
    Ledger.ScanRestores(sealed);
    RestoredIs(sealed);
    RestoredInRange(sealed);
    Ledger.RestoredFields(sealed, prev);
    HashOfRestored(digest, sealed, prev);
    assert Ledger.Scan(Ledger.RowOf(sealed)) == Some(Ledger.Restored(sealed));
  }

  lemma PreparedQuantities(e: Ledger.Entry, now: Ledger.Time, seqNo: int)
    ensures var prepared := Ledger.Prepared(e, now, seqNo);
      && Quantities(prepared) == Quantities(e) && StoredQuantities(prepared) == StoredQuantities(e)
      && (Ledger.EntryOk(e) ==> Ledger.EntryOk(prepared)) && (Ledger.InRange(e) ==> Ledger.InRange(prepared))
  {
  }

  lemma SealedInRange(digest: string -> string, e: Ledger.Entry, prevHash: string)
    requires Ledger.InRange(e) && Ledger.EntryOk(e)
    ensures var sealed := Ledger.Seal(digest, e, prevHash);
      Ledger.InRange(sealed) && (Ledger.Version(sealed) >= 2 ==> Billing.Normalized(sealed.usage) == sealed.usage)
  {
    hide Ledger.HashOf;
    Ledger.SealedIs(digest, e, prevHash);
  }

  lemma RestoredInRange(sealed: Ledger.Entry)
    requires Ledger.InRange(sealed)
    ensures Ledger.InRange(Ledger.Restored(sealed))
  {
    hide Ledger.ItemizedUsage;
    Ledger.ItemizedIsNormal(sealed);
  }

  lemma HashOfRestored(digest: string -> string, sealed: Ledger.Entry, prevHash: string)
    requires Ledger.Fields(Ledger.Restored(sealed), prevHash) == Ledger.Fields(sealed, prevHash)
    ensures Ledger.HashOf(digest, Ledger.Restored(sealed), prevHash) == Ledger.HashOf(digest, sealed, prevHash)
  {
    hide Ledger.Fields;
  }

  // What is accepted

  /** A hash the table does not have yet. */
  ghost predicate NewHash(digest: string -> string, s: State, e: Ledger.Entry, now: Ledger.Time) {
    forall row :: Carries(digest, row, e, now, s.ledger) ==>
      forall i :: 0 <= i < |s.ledger| ==> s.ledger[i].hash != row.hash
  }

  /** A known version, valid quantities, no negative figure, a known run and a new hash. */
  ghost predicate Acceptable(digest: string -> string, s: State, e: Ledger.Entry, now: Ledger.Time) {
    && e.hashVersion in {0, 1, 2} && Billing.UsageOk(StoredQuantities(e))
    && 0 <= e.inputTokens && 0 <= e.outputTokens && 0 <= e.cost && e.run in s.runs && NewHash(digest, s, e, now)
  }

  /** A row's columns determine its hash. */
  lemma CarriedHash(digest: string -> string, a: Ledger.Row, b: Ledger.Row, e: Ledger.Entry, now: Ledger.Time,
                    rows: seq<Ledger.Row>)
    requires Carries(digest, a, e, now, rows) && Carries(digest, b, e, now, rows)
    ensures a.hash == b.hash
  {
    hide Quantities, StoredQuantities, Billing.Canonical, Text.Integer, Ledger.Netstrings, Billing.Parsed,
      Ledger.ParseTime,
      Ledger.InRange, Ledger.UsageText;
    var x, y := Ledger.Scan(a).value, Ledger.Scan(b).value;
    assert x == y.(hash := x.hash);
    SameText(x, y);
    assert Ledger.Fields(x, a.prevHash) == Ledger.Fields(y, b.prevHash);
  }

  lemma SameText(x: Ledger.Entry, y: Ledger.Entry)
    requires x == y.(hash := x.hash)
    ensures Ledger.UsageText(x) == Ledger.UsageText(y)
  {
    hide Billing.Canonical, Billing.Complaint;
    assert Ledger.ItemizedUsage(x) == Ledger.ItemizedUsage(y);
  }

  lemma ValidAsSealed(digest: string -> string, s: State, e: Ledger.Entry, now: Ledger.Time)
    ensures Ledger.EntryOk(e) && Billing.UsageOk(Ledger.ItemizedUsage(SealedEntry(digest, s.ledger, e, now)))
       <==> e.hashVersion in {0, 1, 2} && Billing.UsageOk(StoredQuantities(e))
  {
    var prepared, prev := Ledger.Prepared(e, now, |s.ledger| + 1), HeadOf(s.ledger);
    SealedIs(digest, prepared, prev);
    hide Ledger.HashOf, Ledger.Seal, Ledger.ItemizedUsage, Quantities, Billing.TokenUsage;
    PreparedQuantities(e, now, |s.ledger| + 1);
    QuantitiesAgain(prepared, Ledger.Seal(digest, prepared, prev));
    QuantitiesAre(e);
    assert Quantities(e) == map[] ==> Billing.UsageOk(Quantities(e));
  }

  lemma AppendableExactly(digest: string -> string, s: State, e: Ledger.Entry, now: Ledger.Time)
    requires Ledger.InRange(e)
    ensures Appendable(digest, s, e, now) <==> Acceptable(digest, s, e, now)
  {
    hide SealedEntry, Ledger.ItemizedUsage, StoredQuantities, Carries, Ledger.EntryOk, Ledger.InRange, Billing.UsageOk;
    ValidAsSealed(digest, s, e, now);
    var sealed := SealedEntry(digest, s.ledger, e, now);
    if Ledger.EntryOk(e) && Billing.UsageOk(Ledger.ItemizedUsage(sealed))
       && 0 <= e.inputTokens && 0 <= e.outputTokens && 0 <= e.cost {
      SealedCarries(digest, s.ledger, e, now);
      forall row | Carries(digest, row, e, now, s.ledger)
        ensures row.hash == sealed.hash
      {
        CarriedHash(digest, row, Ledger.RowOf(sealed), e, now, s.ledger);
      }
    }
  }

  /** Why an entry is refused: the first check that it fails. */
  lemma RefusalsNamed(digest: string -> string, s: State, e: Ledger.Entry, now: Ledger.Time)
    requires Ledger.InRange(e) && !Acceptable(digest, s, e, now)
    ensures AppendFault(digest, s, e, now) ==
      if e.hashVersion !in {0, 1, 2} || !Billing.UsageOk(StoredQuantities(e)) then Error.Invalid
      else if e.inputTokens < 0 || e.outputTokens < 0 || e.cost < 0 || !NewHash(digest, s, e, now) then Error.Conflict
      else Error.NotFound
  {
    hide SealedEntry, Ledger.ItemizedUsage, StoredQuantities, Carries, Ledger.EntryOk, Ledger.InRange, Billing.UsageOk;
    ValidAsSealed(digest, s, e, now);
    var sealed := SealedEntry(digest, s.ledger, e, now);
    if Ledger.EntryOk(e) && Billing.UsageOk(Ledger.ItemizedUsage(sealed))
       && 0 <= e.inputTokens && 0 <= e.outputTokens && 0 <= e.cost {
      SealedCarries(digest, s.ledger, e, now);
      forall row | Carries(digest, row, e, now, s.ledger)
        ensures row.hash == sealed.hash
      {
        CarriedHash(digest, row, Ledger.RowOf(sealed), e, now, s.ledger);
      }
    }
  }

  // The calls that write to the ledger

  /** One row more, which carries the entry. */
  ghost predicate OneRowMore(digest: string -> string, s: State, e: Ledger.Entry, now: Ledger.Time, t: State) {
    && |t.ledger| == |s.ledger| + 1 && t.ledger[..|s.ledger|] == s.ledger
    && Carries(digest, t.ledger[|s.ledger|], e, now, s.ledger)
  }

  lemma RowAdded(digest: string -> string, s: State, e: Ledger.Entry, now: Ledger.Time, t: State)
    requires Ledger.InRange(e) && Appendable(digest, s, e, now)
    requires var sealed := SealedEntry(digest, s.ledger, e, now);
      0 <= sealed.inputTokens && 0 <= sealed.outputTokens && 0 <= sealed.cost
        && t.ledger == s.ledger + [Ledger.RowOf(sealed)]
    ensures OneRowMore(digest, s, e, now, t)
  {
    hide SealedEntry, Carries, Ledger.ItemizedUsage, Ledger.EntryOk, Ledger.InRange, Ledger.RowOf, Billing.UsageOk;
    SealedCarries(digest, s.ledger, e, now);
  }

  /**
   * A direct append adds one row, joined to nothing, for exactly the acceptable entries; otherwise it changes nothing.
   */
  lemma AppendedExactly(digest: string -> string, s: State, e: Ledger.Entry, now: Ledger.Time, t: State)
    requires Integrity(s) && Answers(digest, s, AppendLedger(e, now), t)
    ensures t.runs == s.runs && t.leases == s.leases && t.holds == s.holds && t.settlements == s.settlements
    ensures if Acceptable(digest, s, e, now) then OneRowMore(digest, s, e, now, t) else t == s
  {
    hide Integrity, Acceptable, OneRowMore, SealedEntry, Appendable, AppendFault, Ledger.RowOf, Ledger.InRange,
      AppendUnreserved;
    AppendableExactly(digest, s, e, now);
    var res :| Appended(digest, s, e, now, res, t);
    if res.Ok? {
      SealedColumns(digest, s, e, now);
      AppendParts(s, Ledger.RowOf(res.value));
      RowAdded(digest, s, e, now, t);
    }
  }

  /** The reservation may still be charged: it is of the run, and pending or expired, and has no charge yet. */
  ghost predicate Chargeable(s: State, i: nat, id: Id, run: Id) {
    && i < |s.holds| && s.holds[i].id == id && s.holds[i].run == run && s.holds[i].status in {Pending, Expired}
    && id !in s.settlements
  }

  /** One row more, joined to hold i, which is settled if it was pending; no other row of any table has changed. */
  ghost predicate ChargedTo(digest: string -> string, s: State, i: nat, e: Ledger.Entry, now: Ledger.Time, t: State)
    requires i < |s.holds|
  {
    && OneRowMore(digest, s, e, now, t) && t.runs == s.runs && t.leases == s.leases
    && t.settlements == s.settlements[s.holds[i].id := |t.ledger|]
    && t.holds == (if s.holds[i].status == Pending then s.holds[i := s.holds[i].(status := Settled)] else s.holds)
  }

  /** A settlement charges exactly a chargeable reservation with an acceptable entry; otherwise it changes nothing. */
  lemma SettledExactly(digest: string -> string, s: State, id: Id, e: Ledger.Entry, now: Ledger.Time, t: State)
    requires Integrity(s) && Answers(digest, s, SettleReservation(id, e, now), t)
    ensures forall i :: Chargeable(s, i, id, e.run) && Acceptable(digest, s, e, now) ==>
      ChargedTo(digest, s, i, e, now, t)
    ensures (!Acceptable(digest, s, e, now) || forall i :: !Chargeable(s, i, id, e.run)) ==> t == s
  {
    hide Forest, LinksOk, HoldsReferTo, Acceptable, OneRowMore, SealedEntry, Appendable, AppendFault, Ledger.RowOf,
      Ledger.InRange, Ledger.Scan, Charge, Locate;
    AppendableExactly(digest, s, e, now);
    var res :| Charged(digest, s, id, e, now, res, t);
    forall i: nat | i < |s.holds| && s.holds[i].id == id
      ensures Locate(s.holds, id) == Some(i)
    {
      LocateIs(s.holds, i);
    }
    if Locate(s.holds, id).Some? {
      LocatedId(s.holds, id);
      var i := Locate(s.holds, id).value;
      assert Chargeable(s, i, id, e.run) <==>
        s.holds[i].run == e.run && s.holds[i].status in {Pending, Expired} && id !in s.settlements;
    }
    if i: nat :| Chargeable(s, i, id, e.run) && Acceptable(digest, s, e, now) {
      SealedColumns(digest, s, e, now);
      ChargeParts(s, i, Ledger.RowOf(res.value), s.holds[i].status == Pending);
      RowAdded(digest, s, e, now, t);
    }
  }

  /** What a settlement of a reservation without a charge answers. */
  lemma SettlementAnswers(digest: string -> string, s: State, i: nat, e: Ledger.Entry, now: Ledger.Time,
                          res: Result<Ledger.Entry, Error>, t: State)
    requires Integrity(s) && Ledger.InRange(e) && i < |s.holds| && s.holds[i].id !in s.settlements
    requires Charged(digest, s, s.holds[i].id, e, now, res, t)
    ensures
      if s.holds[i].run != e.run || s.holds[i].status in {Settled, Released} then res == Err(Error.Conflict)
      else if !Acceptable(digest, s, e, now) then res == Err(AppendFault(digest, s, e, now))
      else res.Ok? && res.value.seqNo == |s.ledger| + 1 && res.value.run == e.run && res.value.cost == e.cost
  {
    hide Forest, LinksOk, HoldsReferTo, Acceptable, SealedEntry, Appendable, AppendFault, Ledger.RowOf, Ledger.InRange,
      Ledger.Scan, Charge, Locate;
    AppendableExactly(digest, s, e, now);
    SealedFigures(digest, s, e, now);
    LocateIs(s.holds, i);
    match s.holds[i].status {
      case Pending => assert s.holds[i].run == e.run ==> ChargedAt(digest, s, i, e, now, res, t);
      case Expired => assert s.holds[i].run == e.run ==> ChargedAt(digest, s, i, e, now, res, t);
      case _ =>
    }
  }

  lemma UnknownIsNotFound(digest: string -> string, s: State, id: Id, e: Ledger.Entry, now: Ledger.Time,
                          res: Result<Ledger.Entry, Error>, t: State)
    requires Integrity(s) && Charged(digest, s, id, e, now, res, t) && id !in s.settlements
    requires forall i :: 0 <= i < |s.holds| ==> s.holds[i].id != id
    ensures res == Err(Error.NotFound)
  {
    hide Integrity, ChargedAt, Ledger.Scan;
  }

  lemma SealedFigures(digest: string -> string, s: State, e: Ledger.Entry, now: Ledger.Time)
    ensures var sealed := SealedEntry(digest, s.ledger, e, now);
      sealed.seqNo == |s.ledger| + 1 && sealed.run == e.run && sealed.cost == e.cost
  {
  }

  /** A charge spends its cost, and frees its hold if that was pending, for the hold's lease and every run above it. */
  lemma ChargeCounts(digest: string -> string, s: State, i: nat, e: Ledger.Entry, now: Ledger.Time, t: State, lease: Id,
                     id: Id)
    requires Integrity(s) && i < |s.holds| && s.holds[i].id !in s.settlements && s.holds[i].run == e.run
    requires ChargedTo(digest, s, i, e, now, t) && id in s.runs && e.cost >= 0
    ensures var hold := s.holds[i];
      var freed := if hold.status == Pending then hold.amount else 0;
      && Forest(t.runs) && id in t.runs
      && LeaseSpent(t, lease) == LeaseSpent(s, lease) + (if hold.lease == Some(lease) then e.cost else 0)
      && LeaseHeld(t, lease) == LeaseHeld(s, lease) - (if hold.lease == Some(lease) then freed else 0)
      && Spent(t, id) == Spent(s, id) + (if id in Chain(s.runs, e.run) then e.cost else 0)
      && Held(t, id) == Held(s, id) - (if id in Chain(s.runs, e.run) then freed else 0)
  {
    hide Ledger.Scan, Ledger.HashOf, StoredQuantities, Ledger.InRange, Chain, Forest, UniqueHolds, LinksOk,
      LinkedCost;
    var hold, row := s.holds[i], t.ledger[|s.ledger|];
    assert t.ledger == s.ledger + [row];
    WalksAreDual(s.runs, id, e.run);
    TotalOfAppend(s.ledger, row, SpentBy(Subtree(s.runs, id)));
    TotalOfUpdate(s.holds, i, hold.(status := Settled), HeldBy(Subtree(s.runs, id)));
    TotalOfUpdate(s.holds, i, hold.(status := Settled), LeaseHeldBy(lease));
    ChargeLeaseSpent(s, i, row, lease);
    TotalOfUpdate(s.holds, i, hold.(status := Settled), LeaseSpentBy(t.settlements, t.ledger, lease));
  }

  // Ledgers in the usage form

  /** Calls like the recorder's, whose entries leave the version to the store. */
  predicate Unversioned(call: Call) {
    call.AppendLedger? || call.SettleReservation? ==> call.e.hashVersion == 0
  }

  ghost predicate InUsageForm(row: Ledger.Row) {
    row.hashVersion == 2 && Ledger.Scan(row).Some? && Ledger.InRange(Ledger.Scan(row).value)
  }

  ghost predicate UsageForm(rows: seq<Ledger.Row>) {
    forall k :: 0 <= k < |rows| ==> InUsageForm(rows[k])
  }

  lemma RowKeepsUsageForm(digest: string -> string, s: State, e: Ledger.Entry, now: Ledger.Time, t: State)
    requires UsageForm(s.ledger) && OneRowMore(digest, s, e, now, t) && e.hashVersion == 0
    ensures UsageForm(t.ledger)
  {
    hide Ledger.Scan, Ledger.InRange, Ledger.HashOf, StoredQuantities;
    assert forall k :: 0 <= k < |s.ledger| ==> t.ledger[k] == t.ledger[..|s.ledger|][k];
  }

  lemma OthersKeepLedger(digest: string -> string, s: State, call: Call, t: State)
    requires Integrity(s) && Answers(digest, s, call, t) && !call.AppendLedger? && !call.SettleReservation?
    ensures t.ledger == s.ledger
  {
    hide Integrity, Decidable, Decided, ReserveFails, Leasable, Locate;
  }

  lemma CallKeepsUsageForm(digest: string -> string, s: State, call: Call, t: State)
    requires Integrity(s) && Answers(digest, s, call, t) && Unversioned(call) && UsageForm(s.ledger)
    ensures UsageForm(t.ledger)
  {
    hide Integrity, Answers, UsageForm, Acceptable, Chargeable, OneRowMore;
    match call {
      case AppendLedger(e, now) =>
        AppendedExactly(digest, s, e, now, t);
        if Acceptable(digest, s, e, now) {
          RowKeepsUsageForm(digest, s, e, now, t);
        }
      case SettleReservation(id, e, now) =>
        SettledExactly(digest, s, id, e, now, t);
        if i: nat :| Chargeable(s, i, id, e.run) && Acceptable(digest, s, e, now) {
          RowKeepsUsageForm(digest, s, e, now, t);
        }
      case _ => OthersKeepLedger(digest, s, call, t);
    }
  }

  /** Every reachable ledger of such calls is in the usage form throughout. */
  lemma {:induction false} LedgersInUsageForm(digest: string -> string, calls: seq<Call>, states: seq<State>, i: nat)
    requires History(digest, calls, states) && i < |states|
    requires forall k :: 0 <= k < i ==> Unversioned(calls[k])
    ensures UsageForm(states[i].ledger)
  {
    hide Integrity, Safe, Answers, UsageForm, Unversioned;
    if i == 0 {
      EmptyInUsageForm();
    } else {
      LedgersInUsageForm(digest, calls, states, i - 1);
      ReachableIsSafe(digest, calls, states, i - 1);
      CallKeepsUsageForm(digest, states[i - 1], calls[i - 1], states[i]);
    }
  }

  lemma EmptyInUsageForm()
    ensures UsageForm(EMPTY.ledger)
  {
  }

  /** Two stored rows that agree in everything that is ever read back of them but their links. */
  ghost predicate SameRecord(a: Ledger.Entry, b: Ledger.Entry) {
    && a.seqNo == b.seqNo && a.run == b.run && a.principal == b.principal && a.provider == b.provider
    && a.model == b.model && a.inputTokens == b.inputTokens && a.outputTokens == b.outputTokens && a.cost == b.cost
    && a.estimated == b.estimated && a.createdAt.instant == b.createdAt.instant
    && Ledger.ItemizedUsage(a) == Ledger.ItemizedUsage(b) && a.externalId == b.externalId
    && a.pricingRevision == b.pricingRevision && a.priceEffective.instant == b.priceEffective.instant
  }

  lemma UsageFormAgrees(m: Ledger.Row, n: Ledger.Row)
    requires InUsageForm(m) && InUsageForm(n)
    requires Ledger.SameContents(Ledger.Scan(m).value, Ledger.Scan(n).value)
    ensures SameRecord(Ledger.Scan(m).value, Ledger.Scan(n).value)
  {
    Ledger.ScannedIsDetermined(m);
    Ledger.ScannedIsDetermined(n);
    Ledger.ItemizedIsNormal(Ledger.Scan(m).value);
    Ledger.ItemizedIsNormal(Ledger.Scan(n).value);
    ScannedVersion(m);
    ScannedVersion(n);
    hide Ledger.Scan, Ledger.InRange, Ledger.ItemizedUsage, Billing.UsageOk, Billing.FitsInt64, Ledger.Determined;
  }

  lemma ScannedVersion(row: Ledger.Row)
    requires Ledger.Scan(row).Some?
    ensures Ledger.Scan(row).value.hashVersion == row.hashVersion
  {
    hide Billing.Parsed, Ledger.ParseTime;
  }

  /**
   * Two ledgers that such calls reach and that end in one hash hold the same records throughout, their itemized
   * usage and the provenance of their prices included, or exhibit a break of the digest.
   */
  lemma SameHeadSameRecords(digest: string -> string, calls: seq<Call>, states: seq<State>, i: nat,
                            calls': seq<Call>, states': seq<State>, i': nat)
    requires History(digest, calls, states) && i < |states| && History(digest, calls', states') && i' < |states'|
    requires (forall k :: 0 <= k < i ==> Unversioned(calls[k])) && (forall k :: 0 <= k < i' ==> Unversioned(calls'[k]))
    requires HeadOf(states[i].ledger) == HeadOf(states'[i'].ledger)
    ensures Ledger.Readable(states[i].ledger) && Ledger.Readable(states'[i'].ledger)
    ensures var a, b := Ledger.ScanAll(states[i].ledger), Ledger.ScanAll(states'[i'].ledger);
      || Ledger.Collision(digest, a, b) || Ledger.GenesisPreimage(digest, a) || Ledger.GenesisPreimage(digest, b)
      || (|a| == |b| && forall k :: 0 <= k < |a| ==> SameRecord(a[k], b[k]))
  {
    hide History, InUsageForm, Unversioned, Ledger.Scan, Ledger.Linked, Ledger.SameContents, SameRecord,
      Ledger.AllDetermined,
      Ledger.Collision, Ledger.GenesisPreimage;
    LedgersVerify(digest, calls, states, i);
    LedgersVerify(digest, calls', states', i');
    LedgersInUsageForm(digest, calls, states, i);
    LedgersInUsageForm(digest, calls', states', i');
    var m, n := states[i].ledger, states'[i'].ledger;
    var a, b := Ledger.ScanAll(m), Ledger.ScanAll(n);
    ScannedHead(m);
    ScannedHead(n);
    Ledger.TamperEvidence(digest, a, b);
    if |a| == |b| && forall k :: 0 <= k < |a| ==> a[k].hash == b[k].hash && Ledger.SameContents(a[k], b[k]) {
      forall k | 0 <= k < |a|
        ensures SameRecord(a[k], b[k])
      {
        UsageFormAgrees(m[k], n[k]);
      }
    }
  }

  lemma ScannedHead(rows: seq<Ledger.Row>)
    requires Ledger.Readable(rows)
    ensures Ledger.HeadHash(Ledger.ScanAll(rows)) == HeadOf(rows)
  {
    hide Billing.Parsed, Ledger.ParseTime;
  }
}
