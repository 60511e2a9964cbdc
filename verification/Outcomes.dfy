/** What each store transaction answers and commits, stated over the tables it started from. */
module Outcomes {
  import opened Wrappers
  import opened Int64
  import opened Sums
  import opened Hierarchy
  import opened Tables
  import opened Changes
  import opened Budgets
  import Billing
  import Ledger
  import Stamps

  /** The sentinel errors, and the failures that come back wrapped in neither of them. */
  datatype Error = NotFound | Conflict | Overflow | Invalid

  datatype Request = Request(
    id: Id, run: Id, lease: Option<Id>, amount: Nanos, status: HoldStatus, expiresAt: Instant)

  datatype Decision = Decision(
    allowed: bool, wouldBlock: bool, run: Id, budget: int, spent: int, held: int,
    requested: Nanos, remaining: int, shortfall: Nanos)

  datatype Level = Level(
    run: Id, status: RunStatus, budget: nat, spent: nat, held: nat, remaining: nat, unlimited: bool)

  datatype Status = Status(
    run: Id, status: RunStatus, spendAllowed: bool, blockingRun: Option<Id>, unlimited: bool,
    effectiveRemaining: nat, limitingRun: Option<Id>, levels: seq<Level>)

  // Runs and leases

  /** CreateRun inserts: a new id, no negative budget, and any parent active under the same principal. */
  predicate Creatable(s: State, id: Id, principal: Id, parent: Option<Id>, budget: Nanos) {
    && id !in s.runs && 0 <= budget
    && (parent.Some? ==> parent.value in s.runs && s.runs[parent.value].principal == principal
                         && s.runs[parent.value].status == Active)
  }

  /** CreateLease inserts: every run up to the root is active, and the id and token are new. */
  ghost predicate Leasable(s: State, id: Id, run: Id, tokenHash: string, ceiling: Nanos)
    requires Forest(s.runs)
  {
    && run in s.runs && ChainActive(s.runs, run)
    && id !in s.leases && 0 <= ceiling && tokenHash !in TokenHashes(s.leases)
  }

  // TryReserve

  predicate Summable(spent: nat, held: nat) {
    spent <= MAX_INT64 && held <= MAX_INT64
  }

  /** Why the decision loop stops with an error at this level, if it does. */
  function LevelFault(s: State, id: Id): Option<Error>
    requires Forest(s.runs) && id in s.runs
  {
    if s.runs[id].status != Active then Some(Conflict)
    else if s.runs[id].budget != 0 && !Summable(Spent(s, id), Held(s, id)) then Some(Overflow)
    else None
  }

  predicate LeaseFault(s: State, lease: Option<Id>)
    requires lease.Some? ==> lease.value in s.leases
  {
    lease.Some? && !Summable(LeaseSpent(s, lease.value), LeaseHeld(s, lease.value))
  }

  /** The nearest level, counted from the target run, that is short. */
  ghost predicate NearestShort(s: State, r: Request, k: int)
    requires Forest(s.runs) && r.run in s.runs
  {
    var chain := Chain(s.runs, r.run);
    && 0 <= k < |chain| && Short(s, chain[k], r.amount)
    && forall j :: 0 <= j < k ==> !Short(s, chain[j], r.amount)
  }

  ghost predicate NoneShort(s: State, r: Request)
    requires Forest(s.runs) && r.run in s.runs
  {
    forall k :: 0 <= k < |Chain(s.runs, r.run)| ==> !Short(s, Chain(s.runs, r.run)[k], r.amount)
  }

  ghost predicate RunBlocks(s: State, r: Request, d: Decision)
    requires Forest(s.runs) && r.run in s.runs
  {
    exists k :: NearestShort(s, r, k) && d.run == Chain(s.runs, r.run)[k]
      && d.budget == s.runs[d.run].budget && d.spent == Spent(s, d.run) && d.held == Held(s, d.run)
      && d.remaining == RunRemaining(s, d.run) && d.shortfall == r.amount - d.remaining
  }

  ghost predicate LeaseBlocks(s: State, r: Request, d: Decision)
    requires Forest(s.runs) && r.run in s.runs && (r.lease.Some? ==> r.lease.value in s.leases)
  {
    && NoneShort(s, r) && LeaseShort(s, r.lease, r.amount) && d.run == r.run
    && d.budget == s.leases[r.lease.value].ceiling
    && d.spent == LeaseSpent(s, r.lease.value) && d.held == LeaseHeld(s, r.lease.value)
    && d.remaining == LeaseRemaining(s, r.lease.value) && d.shortfall == r.amount - d.remaining
  }

  ghost predicate NothingBlocks(s: State, r: Request, d: Decision)
    requires Forest(s.runs) && r.run in s.runs && (r.lease.Some? ==> r.lease.value in s.leases)
  {
    && NoneShort(s, r) && !LeaseShort(s, r.lease, r.amount) && d.run == r.run
    && d.budget == d.spent == d.held == d.remaining == d.shortfall == 0
  }

  /** The decision: what blocks, named as the nearest insufficient level, and what enforcement makes of it. */
  ghost predicate Decided(s: State, r: Request, enforce: bool, d: Decision)
    requires Forest(s.runs) && r.run in s.runs && (r.lease.Some? ==> r.lease.value in s.leases)
  {
    && d.requested == r.amount && d.allowed == (!enforce || !d.wouldBlock)
    && (if d.wouldBlock then RunBlocks(s, r, d) || LeaseBlocks(s, r, d) else NothingBlocks(s, r, d))
  }

  /** The request names known rows and every level of its chain can be decided. */
  ghost predicate Decidable(s: State, r: Request)
    requires Forest(s.runs)
  {
    && r.status == Pending && r.run in s.runs && (r.lease.Some? ==> r.lease.value in s.leases)
    && ChainDecidable(s, r.run) && !LeaseFault(s, r.lease)
  }

  ghost predicate NearestFault(s: State, run: Id, e: Error)
    requires Forest(s.runs) && run in s.runs
  {
    exists k :: 0 <= k < |Chain(s.runs, run)| && LevelFault(s, Chain(s.runs, run)[k]) == Some(e)
      && forall j :: 0 <= j < k ==> LevelFault(s, Chain(s.runs, run)[j]) == None
  }

  predicate Insertable(s: State, r: Request) {
    0 <= r.amount && Locate(s.holds, r.id) == None
  }

  ghost predicate ReserveFails(s: State, r: Request, enforce: bool, e: Error)
    requires Forest(s.runs)
  {
    if r.status != Pending then e == Conflict
    else if r.run !in s.runs then e == NotFound
    else if !ChainDecidable(s, r.run) then NearestFault(s, r.run, e)
    else if r.lease.Some? && r.lease.value !in s.leases then e == NotFound
    else if LeaseFault(s, r.lease) then e == Overflow
    else e == Conflict && !Insertable(s, r) && exists d :: Decided(s, r, enforce, d) && d.allowed
  }

  // The decision's two halves

  function Unblocked(r: Request): Decision {
    Decision(false, false, r.run, 0, 0, 0, r.amount, 0, 0)
  }

  ghost predicate ChainDecidable(s: State, run: Id)
    requires Forest(s.runs) && run in s.runs
  {
    forall k :: 0 <= k < |Chain(s.runs, run)| ==> LevelFault(s, Chain(s.runs, run)[k]) == None
  }

  ghost predicate RunsDecided(s: State, r: Request, res: Result<Decision, Error>)
    requires Forest(s.runs) && r.run in s.runs
  {
    match res
    case Err(e) => NearestFault(s, r.run, e)
    case Ok(d) =>
      && ChainDecidable(s, r.run)
      && if d.wouldBlock then RunBlocks(s, r, d) && d.requested == r.amount else d == Unblocked(r) && NoneShort(s, r)
  }

  ghost predicate LeaseDecided(s: State, r: Request, before: Decision, res: Result<Decision, Error>) {
    match res
    case Err(e) =>
      if r.lease.Some? && r.lease.value !in s.leases then e == NotFound
      else LeaseFault(s, r.lease) && e == Overflow
    case Ok(d) =>
      && (r.lease.Some? ==> r.lease.value in s.leases) && !LeaseFault(s, r.lease)
      && if !before.wouldBlock && LeaseShort(s, r.lease, r.amount) then
           var left := LeaseRemaining(s, r.lease.value);
           && d.wouldBlock && d.requested == r.amount && d.run == before.run
           && d.budget == s.leases[r.lease.value].ceiling && d.remaining == left && d.shortfall == r.amount - left
           && d.spent == LeaseSpent(s, r.lease.value) && d.held == LeaseHeld(s, r.lease.value)
         else d == before
  }

  lemma FailsEarly(s: State, r: Request, enforce: bool)
    requires Forest(s.runs)
    ensures r.status != Pending ==> ReserveFails(s, r, enforce, Conflict)
    ensures r.status == Pending && r.run !in s.runs ==> ReserveFails(s, r, enforce, NotFound)
  {
  }

  lemma RunsFail(s: State, r: Request, enforce: bool, res: Result<Decision, Error>)
    requires Forest(s.runs) && r.status == Pending && r.run in s.runs && res.Err? && RunsDecided(s, r, res)
    ensures ReserveFails(s, r, enforce, res.error)
  {
  }

  lemma LeaseFails(s: State, r: Request, enforce: bool, runs: Result<Decision, Error>, res: Result<Decision, Error>)
    requires Forest(s.runs) && r.status == Pending && r.run in s.runs
    requires runs.Ok? && RunsDecided(s, r, runs) && res.Err? && LeaseDecided(s, r, runs.value, res)
    ensures ReserveFails(s, r, enforce, res.error)
  {
  }

  lemma DecisionsCompose(s: State, r: Request, enforce: bool, runs: Result<Decision, Error>,
                         res: Result<Decision, Error>, d: Decision)
    requires Forest(s.runs) && r.status == Pending && r.run in s.runs
    requires runs.Ok? && RunsDecided(s, r, runs) && res.Ok? && LeaseDecided(s, r, runs.value, res)
    requires d == res.value.(allowed := !enforce || !res.value.wouldBlock)
    ensures Decidable(s, r) && Decided(s, r, enforce, d)
  {
    hide RunRemaining, LeaseRemaining, Spent, Held, LeaseSpent, LeaseHeld, LevelFault, Chain;
  }

  lemma InsertFails(s: State, r: Request, enforce: bool, d: Decision)
    requires Forest(s.runs) && Decidable(s, r) && Decided(s, r, enforce, d) && d.allowed && !Insertable(s, r)
    ensures ReserveFails(s, r, enforce, Conflict)
  {
    hide Decided, LevelFault;
  }

  function HoldOf(r: Request): Hold
    requires 0 <= r.amount
  {
    Hold(r.id, r.run, r.lease, r.amount, Pending, r.expiresAt)
  }

  /** TryReserve's outcome, and the tables it leaves behind. */
  ghost predicate Reserved(s: State, r: Request, enforce: bool, res: Result<Decision, Error>, t: State)
    requires Forest(s.runs)
  {
    match res
    case Err(e) => t == s && ReserveFails(s, r, enforce, e)
    case Ok(d) =>
      && Decidable(s, r) && Decided(s, r, enforce, d)
      && if d.allowed then Insertable(s, r) && t == InsertHold(s, HoldOf(r), !d.wouldBlock) else t == s
  }

  // BudgetStatus

  function LevelOf(s: State, id: Id): Level
    requires Forest(s.runs) && id in s.runs
  {
    var run := s.runs[id];
    Level(id, run.status, run.budget, Spent(s, id), Held(s, id),
          if run.budget > 0 then RunRemaining(s, id) else 0, run.budget == 0)
  }

  /** The nearest level among the first n with the least remaining budget. */
  ghost predicate Limiting(s: State, chain: seq<Id>, n: nat, k: int)
    requires Forest(s.runs) && n <= |chain| && forall i :: 0 <= i < |chain| ==> chain[i] in s.runs
  {
    && 0 <= k < n && s.runs[chain[k]].budget > 0
    && (forall j :: 0 <= j < n && s.runs[chain[j]].budget > 0
          ==> RunRemaining(s, chain[k]) <= RunRemaining(s, chain[j]))
    && (forall j :: 0 <= j < k && s.runs[chain[j]].budget > 0
          ==> RunRemaining(s, chain[k]) < RunRemaining(s, chain[j]))
  }

  ghost predicate Blocking(s: State, chain: seq<Id>, n: nat, k: int)
    requires n <= |chain| && forall i :: 0 <= i < |chain| ==> chain[i] in s.runs
  {
    && 0 <= k < n && s.runs[chain[k]].status != Active
    && forall j :: 0 <= j < k ==> s.runs[chain[j]].status == Active
  }

  /** Spending is allowed when every level is active; otherwise the nearest closed one blocks it. */
  ghost predicate SpendReported(s: State, chain: seq<Id>, n: nat, b: Status)
    requires n <= |chain| && forall i :: 0 <= i < |chain| ==> chain[i] in s.runs
  {
    && (b.spendAllowed <==> forall j :: 0 <= j < n ==> s.runs[chain[j]].status == Active)
    && (if b.spendAllowed then b.blockingRun == None
        else exists k :: Blocking(s, chain, n, k) && b.blockingRun == Some(chain[k]))
  }

  ghost predicate LimitReported(s: State, chain: seq<Id>, n: nat, b: Status)
    requires Forest(s.runs) && n <= |chain| && forall i :: 0 <= i < |chain| ==> chain[i] in s.runs
  {
    && (b.unlimited <==> forall j :: 0 <= j < n ==> s.runs[chain[j]].budget == 0)
    && (if b.unlimited then b.effectiveRemaining == 0 && b.limitingRun == None
        else exists k ::
          Limiting(s, chain, n, k) && b.limitingRun == Some(chain[k])
          && b.effectiveRemaining == RunRemaining(s, chain[k]))
  }

  /** The report over the first n levels of the chain. */
  ghost predicate Reported(s: State, chain: seq<Id>, n: nat, b: Status)
    requires Forest(s.runs) && n <= |chain| && forall i :: 0 <= i < |chain| ==> chain[i] in s.runs
  {
    && |b.levels| == n && (forall j :: 0 <= j < n ==> b.levels[j] == LevelOf(s, chain[j]))
    && SpendReported(s, chain, n, b) && LimitReported(s, chain, n, b)
  }

  ghost predicate Unsummable(s: State, chain: seq<Id>, k: int)
    requires Forest(s.runs) && forall i :: 0 <= i < |chain| ==> chain[i] in s.runs
  {
    0 <= k < |chain| && !Summable(Spent(s, chain[k]), Held(s, chain[k]))
  }

  ghost predicate StatusOf(s: State, run: Id, res: Result<Status, Error>)
    requires Forest(s.runs)
  {
    match res
    case Err(e) =>
      if run !in s.runs then e == NotFound
      else e == Overflow && exists k :: Unsummable(s, Chain(s.runs, run), k)
    case Ok(b) =>
      && run in s.runs && b.run == run && b.status == s.runs[run].status
      && (forall k :: !Unsummable(s, Chain(s.runs, run), k))
      && Reported(s, Chain(s.runs, run), |Chain(s.runs, run)|, b)
  }

  // Settlement and the ledger

  function HeadOf(ledger: seq<Ledger.Row>): string {
    if ledger == [] then Ledger.GENESIS_HASH else ledger[|ledger| - 1].hash
  }

  /** The entry appendLedgerTx seals: numbered after the head and chained onto its hash. */
  function SealedEntry(digest: string -> string, ledger: seq<Ledger.Row>, e: Ledger.Entry,
                       now: Ledger.Time): Ledger.Entry {
    Ledger.Seal(digest, Ledger.Prepared(e, now, |ledger| + 1), HeadOf(ledger))
  }

  /** The insert succeeds: valid usage, non-negative columns, a known run and a hash not yet in the table. */
  predicate Appendable(digest: string -> string, s: State, e: Ledger.Entry, now: Ledger.Time) {
    var sealed := SealedEntry(digest, s.ledger, e, now);
    && Ledger.EntryOk(e) && Billing.UsageOk(Ledger.ItemizedUsage(sealed))
    && 0 <= e.inputTokens && 0 <= e.outputTokens && 0 <= e.cost
    && e.run in s.runs
    && forall i :: 0 <= i < |s.ledger| ==> s.ledger[i].hash != sealed.hash
  }

  function AppendFault(digest: string -> string, s: State, e: Ledger.Entry, now: Ledger.Time): Error {
    if !Ledger.EntryOk(e) || !Billing.UsageOk(Ledger.ItemizedUsage(SealedEntry(digest, s.ledger, e, now))) then Invalid
    else if e.inputTokens < 0 || e.outputTokens < 0 || e.cost < 0 then Conflict
    else if exists i :: 0 <= i < |s.ledger| && s.ledger[i].hash == SealedEntry(digest, s.ledger, e, now).hash then
      Conflict
    else NotFound
  }

  /** Sealing onto the head of a stored chain keeps the chain. */
  lemma SealedKeepsChain(digest: string -> string, s: State, e: Ledger.Entry, now: Ledger.Time)
    requires Ledger.InRange(e) && Appendable(digest, s, e, now)
    ensures Sealed(digest, s.ledger, Ledger.RowOf(SealedEntry(digest, s.ledger, e, now)))
  {
    hide Ledger.Seal, Ledger.ItemizedUsage, Ledger.RowOf;
    if Ledger.ChainOk(digest, s.ledger) {
      var prepared := Ledger.Prepared(e, now, |s.ledger| + 1);
      assert Ledger.EntryOk(prepared) by {
        assert Ledger.ItemizedUsage(prepared) == Ledger.ItemizedUsage(e) by {
          PreparedUsage(e, now, |s.ledger| + 1);
        }
      }
      Ledger.AppendKeepsChain(digest, s.ledger, prepared);
    }
  }

  lemma PreparedUsage(e: Ledger.Entry, now: Ledger.Time, seqNo: int)
    ensures Ledger.ItemizedUsage(Ledger.Prepared(e, now, seqNo)) == Ledger.ItemizedUsage(e)
  {
  }

  ghost predicate Appended(digest: string -> string, s: State, e: Ledger.Entry, now: Ledger.Time,
                           res: Result<Ledger.Entry, Error>, t: State) {
    match res
    case Err(fault) => t == s && !Appendable(digest, s, e, now) && fault == AppendFault(digest, s, e, now)
    case Ok(sealed) =>
      && Appendable(digest, s, e, now) && sealed == SealedEntry(digest, s.ledger, e, now)
      && t == AppendUnreserved(s, Ledger.RowOf(sealed))
  }

  /** A charge for hold i: sealed, linked and, if the hold was pending, resolving it; or refused. */
  ghost predicate ChargedAt(digest: string -> string, s: State, i: nat, e: Ledger.Entry, now: Ledger.Time,
                            res: Result<Ledger.Entry, Error>, t: State)
    requires i < |s.holds|
  {
    match res
    case Err(fault) => t == s && !Appendable(digest, s, e, now) && fault == AppendFault(digest, s, e, now)
    case Ok(sealed) =>
      && Appendable(digest, s, e, now) && sealed == SealedEntry(digest, s.ledger, e, now)
      && t == Charge(s, i, Ledger.RowOf(sealed), s.holds[i].status == Pending)
  }

  /** SettleReservation's outcome: once linked, the first entry again; otherwise at most one new charge. */
  ghost predicate Charged(digest: string -> string, s: State, id: Id, e: Ledger.Entry, now: Ledger.Time,
                          res: Result<Ledger.Entry, Error>, t: State)
    requires Integrity(s)
  {
    if id in s.settlements then
      && t == s && var back := Ledger.Scan(s.ledger[s.settlements[id] - 1]);
      res == if back.Some? then Ok(back.value) else Err(Invalid)
    else match Locate(s.holds, id)
      case None => t == s && res == Err(NotFound)
      case Some(i) =>
        if e.run != s.holds[i].run || s.holds[i].status !in {Pending, Expired} then
          t == s && res == Err(Conflict)
        else ChargedAt(digest, s, i, e, now, res, t)
  }

  function TokenHashes(leases: map<Id, Lease>): set<string> {
    set id | id in leases :: leases[id].tokenHash
  }

  lemma SafeIsForest(digest: string -> string, s: State)
    requires Safe(digest, s)
    ensures Integrity(s) && Forest(s.runs)
  {
  }

  /** An enabled change to a safe state commits to a safe state. */
  lemma Commit(digest: string -> string, s: State, c: Change)
    requires Safe(digest, s) && (Integrity(s) ==> Enabled(digest, s, c))
    ensures Integrity(s) && Enabled(digest, s, c) && Safe(digest, Apply(s, c))
  {
    hide Enabled, Integrity;
    SafeIsForest(digest, s);
    ChangeKeepsSafe(digest, s, c);
  }

  function Overdue(now: Instant): Hold -> nat {
    (hold: Hold) => if hold.status == Pending && Stamps.TextAtMost(hold.expiresAt, now) then 1 else 0
  }

  /** The rows in which two tables of reservations differ. */
  function Differing(a: seq<Hold>, b: seq<Hold>): set<nat> {
    set i: nat | i < |a| && i < |b| && a[i] != b[i]
  }

  /** As many rows are overdue as the sweep changes. */
  lemma {:induction false} OverdueDiffer(rows: seq<Hold>, swept: seq<Hold>, now: Instant)
    requires |swept| == |rows| && forall i :: 0 <= i < |rows| ==> swept[i] == Swept(rows[i], now)
    ensures Total(rows, Overdue(now)) == |Differing(rows, swept)|
  {
    if rows == [] {
      assert Differing(rows, swept) == {};
    } else {
      var n := |rows| - 1;
      OverdueDiffer(rows[..n], swept[..n], now);
      var before := Differing(rows[..n], swept[..n]);
      assert Differing(rows, swept) == before + (if rows[n] != swept[n] then {n} else {});
    }
  }

  /** An allowed decision leaves room on every level, unless it was allowed in observe mode. */
  lemma DecidedHasRoom(digest: string -> string, s: State, r: Request, enforce: bool, d: Decision)
    requires Safe(digest, s) && Integrity(s) && Decidable(s, r) && Decided(s, r, enforce, d) && Insertable(s, r)
    ensures Enabled(digest, s, NewHold(HoldOf(r), !d.wouldBlock))
  {
    hide LinksOk, LeaseLoad, Load, RunRemaining, LeaseRemaining;
    var chain := Chain(s.runs, r.run);
    forall k | 0 <= k < |chain|
      ensures s.runs[chain[k]].status == Active
      ensures !d.wouldBlock ==> Room(s, chain[k], r.amount)
    {
      assert LevelFault(s, chain[k]) == None;
      if !d.wouldBlock {
        NotShortHasRoom(s, chain[k], r.amount);
      }
    }
    if !d.wouldBlock {
      NotShortHasLeaseRoom(s, r.lease, r.amount);
    }
  }

  lemma SealedColumns(digest: string -> string, s: State, e: Ledger.Entry, now: Ledger.Time)
    requires Appendable(digest, s, e, now)
    ensures var sealed := SealedEntry(digest, s.ledger, e, now);
      && 0 <= sealed.inputTokens && 0 <= sealed.outputTokens && 0 <= sealed.cost
      && sealed.run == e.run && e.run in s.runs && sealed.seqNo == |s.ledger| + 1
  {
  }

  lemma AppendEnabled(digest: string -> string, s: State, e: Ledger.Entry, now: Ledger.Time)
    requires Integrity(s) && Ledger.InRange(e) && Appendable(digest, s, e, now)
    ensures var sealed := SealedEntry(digest, s.ledger, e, now);
      && 0 <= sealed.inputTokens && 0 <= sealed.outputTokens && 0 <= sealed.cost
      && Enabled(digest, s, Appending(Ledger.RowOf(sealed)))
  {
    hide SealedEntry, Sealed, Appendable;
    SealedColumns(digest, s, e, now);
    SealedKeepsChain(digest, s, e, now);
  }

  lemma ChargeEnabled(digest: string -> string, s: State, i: nat, e: Ledger.Entry, now: Ledger.Time)
    requires Integrity(s) && Ledger.InRange(e) && Appendable(digest, s, e, now)
    requires i < |s.holds| && s.holds[i].id !in s.settlements
    requires e.run == s.holds[i].run && s.holds[i].status in {Pending, Expired}
    ensures var sealed := SealedEntry(digest, s.ledger, e, now);
      && 0 <= sealed.inputTokens && 0 <= sealed.outputTokens && 0 <= sealed.cost && sealed.seqNo == |s.ledger| + 1
      && Enabled(digest, s, Charging(i, Ledger.RowOf(sealed), s.holds[i].status == Pending))
  {
    hide SealedEntry, Sealed, Appendable;
    SealedColumns(digest, s, e, now);
    SealedKeepsChain(digest, s, e, now);
  }

  lemma ReportedStart(s: State, chain: seq<Id>, b: Status)
    requires Forest(s.runs) && forall i :: 0 <= i < |chain| ==> chain[i] in s.runs
    requires b == Status(b.run, b.status, true, None, true, 0, None, [])
    ensures Reported(s, chain, 0, b)
  {
  }

  /** Reading one more level of the chain extends the report by that level. */
  lemma ReportedStep(s: State, chain: seq<Id>, k: nat, a: Status, b: Status)
    requires Forest(s.runs) && k < |chain| && forall i :: 0 <= i < |chain| ==> chain[i] in s.runs
    requires Reported(s, chain, k, a)
    requires b.levels == a.levels + [LevelOf(s, chain[k])]
    requires if s.runs[chain[k]].status != Active && a.spendAllowed
             then !b.spendAllowed && b.blockingRun == Some(chain[k])
             else b.spendAllowed == a.spendAllowed && b.blockingRun == a.blockingRun
    requires if s.runs[chain[k]].budget > 0 && (a.unlimited || RunRemaining(s, chain[k]) < a.effectiveRemaining)
             then !b.unlimited && b.effectiveRemaining == RunRemaining(s, chain[k]) && b.limitingRun == Some(chain[k])
             else
               && b.unlimited == a.unlimited && b.effectiveRemaining == a.effectiveRemaining
               && b.limitingRun == a.limitingRun
    ensures Reported(s, chain, k + 1, b)
  {
    hide RunRemaining, Spent, Held, LevelOf, Chain, SpendReported, LimitReported;
    SpendStep(s, chain, k, a, b);
    LimitStep(s, chain, k, a, b);
  }

  lemma SpendStep(s: State, chain: seq<Id>, k: nat, a: Status, b: Status)
    requires k < |chain| && forall i :: 0 <= i < |chain| ==> chain[i] in s.runs
    requires SpendReported(s, chain, k, a)
    requires if s.runs[chain[k]].status != Active && a.spendAllowed
             then !b.spendAllowed && b.blockingRun == Some(chain[k])
             else b.spendAllowed == a.spendAllowed && b.blockingRun == a.blockingRun
    ensures SpendReported(s, chain, k + 1, b)
  {
    if !b.spendAllowed {
      if a.spendAllowed {
        assert Blocking(s, chain, k + 1, k);
      } else {
        var j :| Blocking(s, chain, k, j) && a.blockingRun == Some(chain[j]);
        assert Blocking(s, chain, k + 1, j);
      }
    }
  }

  lemma LimitStep(s: State, chain: seq<Id>, k: nat, a: Status, b: Status)
    requires Forest(s.runs) && k < |chain| && forall i :: 0 <= i < |chain| ==> chain[i] in s.runs
    requires LimitReported(s, chain, k, a)
    requires if s.runs[chain[k]].budget > 0 && (a.unlimited || RunRemaining(s, chain[k]) < a.effectiveRemaining)
             then !b.unlimited && b.effectiveRemaining == RunRemaining(s, chain[k]) && b.limitingRun == Some(chain[k])
             else
               && b.unlimited == a.unlimited && b.effectiveRemaining == a.effectiveRemaining
               && b.limitingRun == a.limitingRun
    ensures LimitReported(s, chain, k + 1, b)
  {
    hide RunRemaining, Forest;
    if !b.unlimited {
      if a.unlimited || b.limitingRun != a.limitingRun || b.effectiveRemaining != a.effectiveRemaining {
        assert Limiting(s, chain, k + 1, k);
      } else {
        var j :| Limiting(s, chain, k, j) && a.limitingRun == Some(chain[j])
          && a.effectiveRemaining == RunRemaining(s, chain[j]);
        assert Limiting(s, chain, k + 1, j);
      }
    }
  }
}
