/**
 * What replicas never undo, and the one thing they can: a hold's release. A settlement takes no lock that a
 * release waits for, so a release that commits after the settlement has read the hold does not stop the charge.
 */
module Races {
  import opened Wrappers
  import opened Hierarchy
  import opened Tables
  import opened Changes
  import opened Budgets
  import opened Outcomes
  import opened Replicas
  import H = Histories
  import Ledger

  /** What a step does to the tables, if anything. */
  ghost predicate Does(digest: string -> string, s: State, step: Step, c: Change, t: State)
    requires Integrity(s)
  {
    && Enabled(digest, s, c) && t == Apply(s, c)
    && (c.Charging? ==> step.CommitSettle?) && (c.Appending? ==> step == Single(c))
  }

  lemma ReserveDoes(digest: string -> string, a: System, p: Replica, b: System) returns (c: Change)
    requires SystemOk(digest, a) && Integrity(a.db) && Next(digest, a, CommitReserve(p), b) && b.db != a.db
    ensures Does(digest, a.db, CommitReserve(p), c, b.db)
  {
    hide Integrity, Safe, PhasesOk, FactsOk, Forest, Enabled;
    SafeIsForest(digest, a.db);
    PhaseHolds(a, p);
    var ph := a.phases[p];
    ReadyIsEnabled(digest, a.db, ph);
    c := NewHold(HoldOf(ph.r), !ph.wouldBlock);
  }

  lemma SettleDoes(digest: string -> string, a: System, p: Replica, now: Ledger.Time, b: System) returns (c: Change)
    requires SystemOk(digest, a) && Integrity(a.db) && Next(digest, a, CommitSettle(p, now), b)
    ensures p in a.phases && a.phases[p].Settling? && Appendable(digest, a.db, a.phases[p].e, now)
    ensures Does(digest, a.db, CommitSettle(p, now), c, b.db) && c.Charging? && c.i == a.phases[p].i
  {
    hide Integrity, Safe, PhasesOk, FactsOk, Forest, Enabled, Charge, Appendable, RowFor;
    SafeIsForest(digest, a.db);
    PhaseHolds(a, p);
    var ph := a.phases[p];
    SettlingIsEnabled(digest, a.db, ph, now);
    c := Charging(ph.i, RowFor(digest, a.db, ph.e, now), ph.foundPending);
  }

  /** Every step either leaves the tables alone or makes one enabled change. */
  lemma StepDoes(digest: string -> string, a: System, step: Step, b: System) returns (c: Change)
    requires SystemOk(digest, a) && Integrity(a.db) && Next(digest, a, step, b) && b.db != a.db
    ensures Does(digest, a.db, step, c, b.db)
    ensures step.CommitSettle? ==> c.Charging? && OpenAt(digest, a, c.i, step.p, step.now)
  {
    hide Integrity, SystemOk, Does, Appendable, Charge, RowFor, Apply, Enabled, InsertHold, Insertable;
    if step.CommitReserve? {
      c := ReserveDoes(digest, a, step.p, b);
    } else if step.CommitSettle? {
      c := SettleDoes(digest, a, step.p, step.now, b);
    } else {
      c := SingleDoes(digest, a, step, b);
    }
  }

  lemma SingleDoes(digest: string -> string, a: System, step: Step, b: System) returns (c: Change)
    requires Integrity(a.db) && Next(digest, a, step, b) && b.db != a.db && !step.CommitReserve? && !step.CommitSettle?
    ensures Does(digest, a.db, step, c, b.db)
  {
    hide Integrity, Apply, Enabled, LeaseOwned, LeaseFault, ShortNow, LeaseShort, Nodes;
    c := step.c;
  }

  // What replicas never undo

  lemma StepPersists(digest: string -> string, a: System, step: Step, b: System)
    requires SystemOk(digest, a) && Integrity(a.db) && Next(digest, a, step, b)
    ensures H.Persists(a.db, b.db)
  {
    hide Integrity, SystemOk, Next, H.Persists, Apply, Enabled;
    if b.db == a.db {
      PersistsAsItIs(a.db);
    } else {
      var c := StepDoes(digest, a, step, b);
      H.ChangePersists(digest, a.db, c);
    }
  }

  lemma PersistsAsItIs(s: State)
    ensures H.Persists(s, s)
  {
  }

  /** Under any interleaving runs, leases, settlements and ledger rows stay, and so do holds but for their status. */
  lemma {:induction false} ExecutionPersists(digest: string -> string, steps: seq<Step>, run: seq<System>, i: nat,
                                             j: nat)
    requires Execution(digest, steps, run) && i <= j < |run|
    ensures H.Persists(run[i].db, run[j].db)
    decreases j
  {
    hide SystemOk, Integrity, Next, H.Persists;
    if i == j {
      PersistsAsItIs(run[i].db);
    } else {
      ExecutionPersists(digest, steps, run, i, j - 1);
      ExecutionIsOk(digest, steps, run, j - 1);
      StepPersists(digest, run[j - 1], steps[j - 1], run[j]);
      H.PersistsTransitively(run[i].db, run[j - 1].db, run[j].db);
    }
  }

  /** Across replicas too a charge stays on its ledger row, and no row serves two reservations. */
  lemma ChargeStaysAcrossReplicas(digest: string -> string, steps: seq<Step>, run: seq<System>, i: nat, j: nat, h: nat)
    requires Execution(digest, steps, run) && i <= j < |run| && h < |run[i].db.holds|
    ensures H.ChargeKept(run[i].db, run[j].db, h) && LinksDistinct(run[j].db.settlements)
  {
    hide SystemOk, Integrity, Execution, H.Persists, H.ChargeKept, LinksDistinct;
    ExecutionPersists(digest, steps, run, i, j);
    ExecutionIsOk(digest, steps, run, i);
    ExecutionIsOk(digest, steps, run, j);
    H.GrowthKeepsCharge(run[i].db, run[j].db, h);
  }

  lemma StepUnderClosed(digest: string -> string, s: State, a: System, step: Step, b: System, id: Id)
    requires SystemOk(digest, a) && Integrity(a.db) && Next(digest, a, step, b)
    requires H.Persists(s, a.db) && id in s.runs && s.runs[id].status == Closed && H.NoneNewUnder(s, a.db, id)
    ensures Forest(b.db.runs) && H.NoneNewUnder(s, b.db, id)
  {
    hide SystemOk, Integrity, Next, H.Persists, H.NoneNewUnder, Forest, Apply, Enabled, CanApply;
    H.ClosedStaysClosed(s, a.db, id);
    if b.db != a.db {
      var c := StepDoes(digest, a, step, b);
      H.ClosedStep(digest, s, a.db, c, id);
    } else {
      H.IntegrityIsForest(a.db);
    }
  }

  lemma ClosedNow(s: State, id: Id)
    requires Integrity(s)
    ensures Forest(s.runs) && H.NoneNewUnder(s, s, id)
  {
    hide LinksOk;
  }

  /** And a closed run gains no hold and no lease, nor does any descendant, however late it is created. */
  lemma {:induction false} ClosedAcrossReplicas(digest: string -> string, steps: seq<Step>, run: seq<System>, i: nat,
                                                j: nat, id: Id)
    requires Execution(digest, steps, run) && i <= j < |run|
    requires id in run[i].db.runs && run[i].db.runs[id].status == Closed
    ensures Forest(run[j].db.runs) && H.NoneNewUnder(run[i].db, run[j].db, id)
    decreases j
  {
    hide SystemOk, Integrity, Next, H.Persists, H.NoneNewUnder, Forest;
    if i == j {
      ExecutionIsOk(digest, steps, run, i);
      ClosedNow(run[i].db, id);
    } else {
      ClosedAcrossReplicas(digest, steps, run, i, j - 1, id);
      ExecutionIsOk(digest, steps, run, j - 1);
      ExecutionPersists(digest, steps, run, i, j - 1);
      StepUnderClosed(digest, run[i].db, run[j - 1], steps[j - 1], run[j], id);
    }
  }

  // Released holds

  /** Hold h was released and has not been charged. */
  ghost predicate Freed(s: State, h: nat) {
    h < |s.holds| && s.holds[h].status == Released && s.holds[h].id !in s.settlements
  }

  /** A settlement of hold h is under way, and its entry can be inserted. */
  ghost predicate Open(digest: string -> string, a: System, h: nat) {
    exists p, now :: OpenAt(digest, a, h, p, now)
  }

  ghost predicate OpenAt(digest: string -> string, a: System, h: nat, p: Replica, now: Ledger.Time) {
    && p in a.phases && a.phases[p].Settling? && a.phases[p].i == h
    && Appendable(digest, a.db, a.phases[p].e, now)
  }

  lemma ChangeKeepsFreed(digest: string -> string, s: State, c: Change, h: nat)
    requires Integrity(s) && Enabled(digest, s, c) && Freed(s, h) && (c.Charging? ==> c.i != h)
    ensures CanApply(s, c) && Freed(Apply(s, c), h)
  {
    hide LinksOk, Forest, HoldsReferTo, Sealed, Charge, ChainActive, RoomOnChain, LeaseRoom;
    if c.Charging? {
      ChargeParts(s, c.i, c.row, c.resolve);
    }
  }

  /** A freed hold stays freed, unless the step commits an open settlement of it. */
  lemma StepFreed(digest: string -> string, a: System, step: Step, b: System, h: nat)
    requires SystemOk(digest, a) && Integrity(a.db) && Next(digest, a, step, b) && Freed(a.db, h)
    ensures Freed(b.db, h) || Open(digest, a, h)
  {
    hide Integrity, SystemOk, Next, Freed, Appendable, Enabled, Apply, CanApply;
    if b.db != a.db {
      var c := StepDoes(digest, a, step, b);
      if c.Charging? && c.i == h {
        assert OpenAt(digest, a, h, step.p, step.now);
      } else {
        ChangeKeepsFreed(digest, a.db, c, h);
      }
    }
  }

  /** A settlement found open was open before, or has just found its hold pending or expired. */
  lemma SettlingBegan(digest: string -> string, a: System, step: Step, b: System, p: Replica)
    requires Integrity(a.db) && Next(digest, a, step, b) && p in b.phases && b.phases[p].Settling?
    ensures (p in a.phases && a.phases[p] == b.phases[p])
         || (b.phases[p].i < |a.db.holds| && a.db.holds[b.phases[p].i].status in {Pending, Expired})
  {
    hide Integrity, Apply, Enabled, LeaseOwned, LeaseFault, ShortNow, LeaseShort, Nodes, Charge, RowFor, Appendable,
      InsertHold, Insertable, Ledger.InRange;
  }

  /** While a settlement is open no other step writes to the ledger. */
  lemma LedgerIsLocked(digest: string -> string, a: System, step: Step, b: System, p: Replica)
    requires SystemOk(digest, a) && Integrity(a.db) && Next(digest, a, step, b)
    requires p in a.phases && a.phases[p].Settling? && p in b.phases && b.phases[p] == a.phases[p]
    ensures b.db.ledger == a.db.ledger && a.phases[p].e.run in a.db.runs
  {
    hide Integrity, Safe, Apply, Enabled, LeaseOwned, LeaseFault, ShortNow, LeaseShort, Nodes, Charge, RowFor,
      Appendable, Ledger.InRange, FactsOk, Forest;
    SafeIsForest(digest, a.db);
    PhaseHolds(a, p);
    SettlingRun(a.db, a.phases[p]);
    if b.db != a.db {
      var c := StepDoes(digest, a, step, b);
      if c.Charging? {
        PhaseHolds(a, step.p);
      } else {
        OnlyWritersWrite(digest, a.db, c);
      }
    }
  }

  lemma SettlingRun(s: State, ph: Phase)
    requires Integrity(s) && ph.Settling? && FactsOk(s, ph)
    ensures ph.e.run in s.runs
  {
    hide Forest, LinksOk, UniqueHolds;
  }

  lemma OnlyWritersWrite(digest: string -> string, s: State, c: Change)
    requires Integrity(s) && Enabled(digest, s, c) && !c.Charging? && !c.Appending?
    ensures CanApply(s, c) && Apply(s, c).ledger == s.ledger
  {
    hide LinksOk, Forest, HoldsReferTo, UniqueHolds, Sealed, ChainActive, RoomOnChain, LeaseRoom;
  }

  lemma AppendableAlike(digest: string -> string, s: State, t: State, e: Ledger.Entry, now: Ledger.Time)
    requires s.ledger == t.ledger && e.run in s.runs && Appendable(digest, t, e, now)
    ensures Appendable(digest, s, e, now)
  {
    hide Ledger.Seal, Ledger.ItemizedUsage;
  }

  /** A settlement of a freed hold that is open after a step was open before it. */
  lemma OpenedBefore(digest: string -> string, a: System, step: Step, b: System, h: nat)
    requires SystemOk(digest, a) && Integrity(a.db) && Next(digest, a, step, b) && Freed(a.db, h) && Open(digest, b, h)
    ensures Open(digest, a, h)
  {
    hide Integrity, SystemOk, Next, Appendable;
    var p, now :| OpenAt(digest, b, h, p, now);
    SettlingBegan(digest, a, step, b, p);
    LedgerIsLocked(digest, a, step, b, p);
    AppendableAlike(digest, a.db, b.db, a.phases[p].e, now);
    assert OpenAt(digest, a, h, p, now);
  }

  /** The steps from one system on. */
  ghost predicate Continues(digest: string -> string, a: System, steps: seq<Step>, run: seq<System>) {
    && |run| == |steps| + 1 && run[0] == a
    && forall i :: 0 <= i < |steps| ==> Integrity(run[i].db) ==> Next(digest, run[i], steps[i], run[i + 1])
  }

  /** A freed hold with no open settlement is never charged. */
  lemma {:induction false} FreedForGood(digest: string -> string, a: System, steps: seq<Step>, run: seq<System>, j: nat,
                                        h: nat)
    requires SystemOk(digest, a) && Integrity(a.db) && Continues(digest, a, steps, run) && j < |run|
    requires Freed(a.db, h) && !Open(digest, a, h)
    ensures SystemOk(digest, run[j]) && Integrity(run[j].db) && Freed(run[j].db, h) && !Open(digest, run[j], h)
    decreases j
  {
    hide Integrity, SystemOk, Next, Open, Freed;
    if j > 0 {
      FreedForGood(digest, a, steps, run, j - 1, h);
      StepKeepsOk(digest, run[j - 1], steps[j - 1], run[j]);
      StepFreed(digest, run[j - 1], steps[j - 1], run[j], h);
      if Open(digest, run[j], h) {
        OpenedBefore(digest, run[j - 1], steps[j - 1], run[j], h);
      }
    }
  }

  /** An open settlement can commit at once. */
  lemma OpenCommits(digest: string -> string, a: System, h: nat) returns (step: Step, b: System)
    requires SystemOk(digest, a) && Integrity(a.db) && h < |a.db.holds| && Open(digest, a, h)
    ensures Next(digest, a, step, b) && a.db.holds[h].id in b.db.settlements
  {
    hide Integrity, Safe, Appendable, RowFor, Charge, Forest, FactsOk;
    var p, now :| OpenAt(digest, a, h, p, now);
    SafeIsForest(digest, a.db);
    PhaseHolds(a, p);
    var ph := a.phases[p];
    var row := RowFor(digest, a.db, ph.e, now);
    step, b := CommitSettle(p, now), Finish(a, p, Charge(a.db, h, row, ph.foundPending));
    ChargeParts(a.db, h, row, ph.foundPending);
  }

  ghost predicate ChargedBy(digest: string -> string, a: System, steps: seq<Step>, run: seq<System>, h: nat)
    requires h < |a.db.holds|
  {
    Continues(digest, a, steps, run) && a.db.holds[h].id in run[|steps|].db.settlements
  }

  /** Some continuation charges hold h. */
  ghost predicate Chargeable(digest: string -> string, a: System, h: nat)
    requires h < |a.db.holds|
  {
    exists steps, run :: ChargedBy(digest, a, steps, run, h)
  }

  /**
   * At any point of any interleaving, a hold that has been released and not charged can still be charged exactly
   * when a settlement of it is under way whose entry can be inserted.
   */
  lemma ReleasedChargeableExactly(digest: string -> string, steps: seq<Step>, run: seq<System>, i: nat, h: nat)
    requires Execution(digest, steps, run) && i < |run| && Freed(run[i].db, h)
    ensures Chargeable(digest, run[i], h) <==> Open(digest, run[i], h)
  {
    hide Integrity, SystemOk, Next, Execution, Open;
    ExecutionIsOk(digest, steps, run, i);
    var a := run[i];
    if Open(digest, a, h) {
      var step, b := OpenCommits(digest, a, h);
      assert ChargedBy(digest, a, [step], [a, b], h);
    } else if Chargeable(digest, a, h) {
      var more, later :| ChargedBy(digest, a, more, later, h);
      FreedForGood(digest, a, more, later, |more|, h);
      SameHold(digest, a, more, later, h);
    }
  }

  /** Continuations do not renumber holds. */
  lemma {:induction false} SameHold(digest: string -> string, a: System, steps: seq<Step>, run: seq<System>, h: nat)
    requires SystemOk(digest, a) && Integrity(a.db) && Continues(digest, a, steps, run) && h < |a.db.holds|
    ensures SystemOk(digest, run[|steps|]) && Integrity(run[|steps|].db)
    ensures h < |run[|steps|].db.holds| && run[|steps|].db.holds[h].id == a.db.holds[h].id
    decreases |steps|
  {
    hide Integrity, SystemOk, Next;
    if steps != [] {
      var n := |steps| - 1;
      assert Continues(digest, a, steps[..n], run[..n + 1]);
      SameHold(digest, a, steps[..n], run[..n + 1], h);
      StepKeepsOk(digest, run[n], steps[n], run[n + 1]);
      StepPersists(digest, run[n], steps[n], run[n + 1]);
    }
  }

  // A run that ends with the charge of a released hold

  const RACE_TIME := Ledger.Time(1, 0)
  const RACE_REQUEST := Request("hold", "run", None, 5, Pending, 9)
  const RACE_ENTRY := Ledger.Entry(
    0, 0, "run", "principal", "provider", "model", 0, 0, map[], "", "", Ledger.Time(0, 0), 5, false, RACE_TIME, "", "")

  function RaceSteps(): seq<Step> {
    [Single(NewRun("run", Run("principal", None, 0, Active, 0))), Begin(0, RACE_REQUEST, true), ReadChain(0),
     ReadLevel(0), ReadLease(0), CommitReserve(0), BeginSettle(1, 0, RACE_ENTRY), Single(Resolution(0, Released)),
     CommitSettle(1, RACE_TIME)]
  }

  function OneRunTable(): State {
    InsertRun(EMPTY, "run", Run("principal", None, 0, Active, 0))
  }

  /** The system before the hold is committed: one run, replica 0 in the given phase. */
  function Reserving(ph: Phase): System {
    System(OneRunTable(), map["principal" := 0], None, map[0 := ph])
  }

  function OneHold(status: HoldStatus): State {
    OneRunTable().(holds := [HoldOf(RACE_REQUEST).(status := status)])
  }

  function SettlingHold(status: HoldStatus): System {
    System(OneHold(status), map[], Some(1), map[1 := Settling(0, RACE_ENTRY, true)])
  }

  lemma RaceAppendable(digest: string -> string)
    ensures Appendable(digest, OneHold(Released), RACE_ENTRY, RACE_TIME)
  {
  }

  ghost function RaceRun(digest: string -> string): seq<System> {
    RaceAppendable(digest);
    var node := Node("run", 0, Active);
    [START,
     System(OneRunTable(), map[], None, map[]),
     Reserving(Locked(RACE_REQUEST, true)),
     Reserving(Reading(RACE_REQUEST, true, [node], 0, false)),
     Reserving(Reading(RACE_REQUEST, true, [node], 1, false)),
     Reserving(Ready(RACE_REQUEST, true, false)),
     System(OneHold(Pending), map[], None, map[]),
     SettlingHold(Pending),
     SettlingHold(Released),
     System(Charge(OneHold(Released), 0, RowFor(digest, OneHold(Released), RACE_ENTRY, RACE_TIME), true),
            map[], None, map[])]
  }

  lemma OneRun()
    ensures var runs := map["run" := Run("principal", None, 0, Active, 0)];
      Forest(runs) && Chain(runs, "run") == ["run"] && Nodes(runs, "run") == [Node("run", 0, Active)]
  {
  }

  lemma RaceBegins(digest: string -> string, i: nat)
    requires i < 3 && Integrity(RaceRun(digest)[i].db)
    ensures Next(digest, RaceRun(digest)[i], RaceSteps()[i], RaceRun(digest)[i + 1])
  {
    hide Integrity, Appendable, RowFor, Charge, Spent, Held;
    OneRun();
  }

  lemma RaceReads(digest: string -> string, i: nat)
    requires 3 <= i < 5 && Integrity(RaceRun(digest)[i].db)
    ensures Next(digest, RaceRun(digest)[i], RaceSteps()[i], RaceRun(digest)[i + 1])
  {
    hide Integrity, Appendable, RowFor, Charge, Spent, Held, Chain;
    OneRun();
  }

  lemma RaceCommits(digest: string -> string)
    requires Integrity(RaceRun(digest)[5].db)
    ensures Next(digest, RaceRun(digest)[5], RaceSteps()[5], RaceRun(digest)[6])
  {
    hide Integrity, Appendable, RowFor, Charge, Spent, Held, Chain;
    OneRun();
  }

  lemma RaceSettles(digest: string -> string, i: nat)
    requires 6 <= i < 9 && Integrity(RaceRun(digest)[i].db)
    ensures Next(digest, RaceRun(digest)[i], RaceSteps()[i], RaceRun(digest)[i + 1])
  {
    hide Integrity, Appendable, RowFor, Charge, Chain;
    RaceAppendable(digest);
  }

  /** Across replicas a hold that was released can be charged all the same: a run from an empty system that ends so. */
  lemma ReleasedHoldIsCharged(digest: string -> string)
    ensures Execution(digest, RaceSteps(), RaceRun(digest))
    ensures var run := RaceRun(digest);
      && run[8].db.holds[0].status == Released
      && |run[9].db.holds| == 1 && run[9].db.holds[0].status == Settled && "hold" in run[9].db.settlements
  {
    hide Integrity, Next, Charge, Appendable, RowFor, Apply;
    var run := RaceRun(digest);
    forall i | 0 <= i < 9 && Integrity(run[i].db)
      ensures Next(digest, run[i], RaceSteps()[i], run[i + 1])
    {
      if i < 3 {
        RaceBegins(digest, i);
      } else if i < 5 {
        RaceReads(digest, i);
      } else if i == 5 {
        RaceCommits(digest);
      } else {
        RaceSettles(digest, i);
      }
    }
    RaceAppendable(digest);
    ChargeParts(OneHold(Released), 0, RowFor(digest, OneHold(Released), RACE_ENTRY, RACE_TIME), true);
  }
}
