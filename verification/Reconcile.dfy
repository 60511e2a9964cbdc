/** Comparing the ledger with a vendor's statement (internal/reconcile/reconcile.go). */
module Reconcile {
  import opened Wrappers
  import opened Int64
  import opened Sums
  import opened Text
  import opened Ordering
  import B = Billing
  import Ledger

  datatype Key = Key(provider: string, model: string)

  /** One record of either source. */
  datatype Line = Line(provider: string, model: string, externalId: string, usage: B.Usage, cost: int, at: int)

  function LedgerLine(e: Ledger.Entry): Line {
    Line(e.provider, e.model, e.externalId, Ledger.ItemizedUsage(e), e.cost, e.createdAt.instant)
  }

  datatype Options = Options(since: int, until: int, tolerance: Nanos)

  predicate OptionsOk(o: Options) {
    o.since != 0 && o.until != 0 && o.since < o.until && 0 <= o.tolerance
  }

  predicate InPeriod(o: Options, l: Line) {
    o.since <= l.at < o.until
  }

  predicate LineOk(l: Line) {
    TrimSpace(l.provider) != "" && TrimSpace(l.model) != "" && B.UsageOk(l.usage) && 0 <= l.cost
  }

  // Exact sums

  predicate Counts(o: Options, key: Key, l: Line) {
    InPeriod(o, l) && Key(l.provider, l.model) == key
  }

  function NonNegative(n: int): nat {
    if n < 0 then 0 else n
  }

  function OneOf(o: Options, key: Key): Line -> nat {
    (l: Line) => if Counts(o, key, l) then 1 else 0
  }

  function CostOf(o: Options, key: Key): Line -> nat {
    (l: Line) => if Counts(o, key, l) then NonNegative(l.cost) else 0
  }

  function UnitOf(o: Options, key: Key, unit: string): Line -> nat {
    (l: Line) => if Counts(o, key, l) then NonNegative(B.At(l.usage, unit)) else 0
  }

  function Records(lines: seq<Line>, o: Options, key: Key): nat {
    Total(lines, OneOf(o, key))
  }

  function Cost(lines: seq<Line>, o: Options, key: Key): nat {
    Total(lines, CostOf(o, key))
  }

  function Quantity(lines: seq<Line>, o: Options, key: Key, unit: string): nat {
    Total(lines, UnitOf(o, key, unit))
  }

  function ExternalIds(lines: seq<Line>, o: Options, key: Key): set<string> {
    set l | l in lines && Counts(o, key, l) && TrimSpace(l.externalId) != "" :: TrimSpace(l.externalId)
  }

  ghost predicate LinesOk(lines: seq<Line>, o: Options) {
    forall i :: 0 <= i < |lines| && InPeriod(o, lines[i]) ==> LineOk(lines[i])
  }

  ghost predicate CostsFit(lines: seq<Line>, o: Options) {
    forall key :: Cost(lines, o, key) <= MAX_INT64
  }

  ghost predicate QuantitiesFit(lines: seq<Line>, o: Options) {
    forall key, unit :: Quantity(lines, o, key, unit) <= MAX_INT64
  }

  /** The source can be aggregated: every record of the period is acceptable and no sum overflows. */
  ghost predicate Aggregable(lines: seq<Line>, o: Options) {
    LinesOk(lines, o) && CostsFit(lines, o) && QuantitiesFit(lines, o)
  }

  // Aggregation

  datatype Aggregate = Aggregate(records: nat, cost: int, usage: B.Usage, ids: set<string>)

  const NOTHING := Aggregate(0, 0, map[], {})

  function Value(groups: map<Key, Aggregate>, key: Key): Aggregate {
    if key in groups then groups[key] else NOTHING
  }

  ghost predicate Tallies(a: Aggregate, lines: seq<Line>, o: Options, key: Key) {
    && a.records == Records(lines, o, key) && a.cost == Cost(lines, o, key) && a.ids == ExternalIds(lines, o, key)
    && forall unit :: B.At(a.usage, unit) == Quantity(lines, o, key, unit)
  }

  /** The groups are the keys with records, each with its exact sums. */
  ghost predicate Aggregates(groups: map<Key, Aggregate>, lines: seq<Line>, o: Options) {
    && (forall key :: key in groups <==> Records(lines, o, key) > 0)
    && (forall key :: Tallies(Value(groups, key), lines, o, key))
  }

  /** The usage map after adding one record's quantities to it. */
  ghost predicate Added(before: B.Usage, usage: B.Usage, after: B.Usage) {
    forall unit :: B.At(after, unit) == B.At(before, unit) + B.At(usage, unit)
  }

  ghost predicate AddFits(before: B.Usage, usage: B.Usage) {
    forall unit :: unit in usage ==> B.At(before, unit) + usage[unit] <= MAX_INT64
  }

  method AddUsage(before: B.Usage, usage: B.Usage) returns (res: Option<B.Usage>)
    ensures res.Some? <==> AddFits(before, usage)
    ensures res.Some? ==> Added(before, usage, res.value)
  {
    var after, rest := before, usage.Keys;
    while rest != {}
      invariant rest <= usage.Keys
      invariant forall unit :: B.At(after, unit) == B.At(before, unit) + (if unit in rest then 0 else B.At(usage, unit))
      invariant forall unit :: unit in usage && unit !in rest ==> B.At(before, unit) + usage[unit] <= MAX_INT64
      decreases rest
    {
      var unit :| unit in rest;
      rest := rest - {unit};
      if B.At(after, unit) > MAX_INT64 - usage[unit] {
        return None;
      }
      after := after[unit := B.At(after, unit) + usage[unit]];
    }
    return Some(after);
  }

  method Add(groups: map<Key, Aggregate>, l: Line) returns (res: Option<map<Key, Aggregate>>)
    ensures var key := Key(l.provider, l.model);
      var a := Value(groups, key);
      && (res.Some? <==> LineOk(l) && a.cost + l.cost <= MAX_INT64 && AddFits(a.usage, l.usage))
      && (res.Some? ==>
            var b := Value(res.value, key);
            var id := TrimSpace(l.externalId);
            && res.value == groups[key := b] && b.records == a.records + 1 && b.cost == a.cost + l.cost
            && Added(a.usage, l.usage, b.usage) && b.ids == a.ids + (if id != "" then {id} else {}))
  {
    hide TrimSpace;
    var key := Key(l.provider, l.model);
    if TrimSpace(key.provider) == "" || TrimSpace(key.model) == "" {
      return None;
    }
    var err := B.Validate(l.usage);
    if err.Some? || l.cost < 0 {
      return None;
    }
    var a := Value(groups, key);
    if a.cost > MAX_INT64 - l.cost {
      return None;
    }
    var usage := AddUsage(a.usage, l.usage);
    if usage == None {
      return None;
    }
    var id := TrimSpace(l.externalId);
    var ids := if id != "" then a.ids + {id} else a.ids;
    return Some(groups[key := Aggregate(a.records + 1, a.cost + l.cost, usage.value, ids)]);
  }

  lemma RecordAppended(lines: seq<Line>, l: Line, o: Options, key: Key)
    ensures Records(lines + [l], o, key) == Records(lines, o, key) + OneOf(o, key)(l)
    ensures Cost(lines + [l], o, key) == Cost(lines, o, key) + CostOf(o, key)(l)
    ensures forall unit ::
      Quantity(lines + [l], o, key, unit) == Quantity(lines, o, key, unit) + UnitOf(o, key, unit)(l)
    ensures ExternalIds(lines + [l], o, key)
         == ExternalIds(lines, o, key)
            + (if Counts(o, key, l) && TrimSpace(l.externalId) != "" then {TrimSpace(l.externalId)} else {})
  {
    hide TrimSpace, Counts;
    TotalOfAppend(lines, l, OneOf(o, key));
    TotalOfAppend(lines, l, CostOf(o, key));
    forall unit
      ensures Quantity(lines + [l], o, key, unit) == Quantity(lines, o, key, unit) + UnitOf(o, key, unit)(l)
    {
      TotalOfAppend(lines, l, UnitOf(o, key, unit));
    }
  }

  lemma LongerSums(lines: seq<Line>, l: Line, o: Options, key: Key)
    requires InPeriod(o, l) && LineOk(l)
    ensures var own := Key(l.provider, l.model) == key;
      && Cost(lines + [l], o, key) == Cost(lines, o, key) + (if own then l.cost else 0)
      && forall unit ::
           Quantity(lines + [l], o, key, unit) == Quantity(lines, o, key, unit) 
             + (if own then B.At(l.usage, unit) else 0)
  {
    hide LineOk, TrimSpace;
    RecordAppended(lines, l, o, key);
    OkAmounts(l);
  }

  lemma FittingAdds(a: Aggregate, lines: seq<Line>, l: Line, o: Options)
    requires var own := Key(l.provider, l.model); Tallies(a, lines, o, own)
    requires Aggregable(lines, o) && InPeriod(o, l)
    requires LineOk(l) && a.cost + l.cost <= MAX_INT64 && AddFits(a.usage, l.usage)
    ensures Aggregable(lines + [l], o)
  {
    hide LineOk, Records, Cost, Quantity, ExternalIds;
    LinesAppended(lines, l, o);
    forall key
      ensures Cost(lines + [l], o, key) <= MAX_INT64
    {
      LongerSums(lines, l, o, key);
      assert Cost(lines, o, key) <= MAX_INT64;
    }
    forall key, unit
      ensures Quantity(lines + [l], o, key, unit) <= MAX_INT64
    {
      LongerSums(lines, l, o, key);
      assert Quantity(lines, o, key, unit) <= MAX_INT64;
    }
  }

  /** Records can be added to a group exactly as long as the extended source can be aggregated. */
  lemma AddsIfAggregable(groups: map<Key, Aggregate>, lines: seq<Line>, l: Line, o: Options)
    requires Aggregates(groups, lines, o) && Aggregable(lines, o) && InPeriod(o, l)
    ensures var a := Value(groups, Key(l.provider, l.model));
      LineOk(l) && a.cost + l.cost <= MAX_INT64 && AddFits(a.usage, l.usage) <==> Aggregable(lines + [l], o)
  {
    hide LineOk, Records, Cost, Quantity, ExternalIds, Tallies;
    var own := Key(l.provider, l.model);
    var a := Value(groups, own);
    assert Tallies(a, lines, o, own);
    if LineOk(l) && a.cost + l.cost <= MAX_INT64 && AddFits(a.usage, l.usage) {
      FittingAdds(a, lines, l, o);
    }
    if Aggregable(lines + [l], o) {
      AggregableAdds(a, lines, l, o);
    }
  }

  lemma AggregableAdds(a: Aggregate, lines: seq<Line>, l: Line, o: Options)
    requires var own := Key(l.provider, l.model); Tallies(a, lines, o, own)
    requires InPeriod(o, l) && Aggregable(lines, o) && Aggregable(lines + [l], o)
    ensures LineOk(l) && a.cost + l.cost <= MAX_INT64 && AddFits(a.usage, l.usage)
  {
    hide LineOk, Records, Cost, Quantity, ExternalIds, Tallies;
    var own := Key(l.provider, l.model);
    LinesAppended(lines, l, o);
    LongerSums(lines, l, o, own);
    SumsOf(a, lines, o, own);
    assert Cost(lines + [l], o, own) <= MAX_INT64;
    forall unit | unit in l.usage
      ensures B.At(a.usage, unit) + l.usage[unit] <= MAX_INT64
    {
      assert Quantity(lines + [l], o, own, unit) <= MAX_INT64;
    }
  }

  lemma SumsOf(a: Aggregate, lines: seq<Line>, o: Options, key: Key)
    requires Tallies(a, lines, o, key)
    ensures a.cost == Cost(lines, o, key) && forall unit :: B.At(a.usage, unit) == Quantity(lines, o, key, unit)
  {
  }

  lemma OkAmounts(l: Line)
    requires LineOk(l)
    ensures 0 <= l.cost && forall unit :: 0 <= B.At(l.usage, unit)
  {
  }

  lemma LinesAppended(lines: seq<Line>, l: Line, o: Options)
    requires LinesOk(lines, o) && InPeriod(o, l)
    ensures LinesOk(lines + [l], o) <==> LineOk(l)
  {
    hide LineOk;
    assert (lines + [l])[|lines|] == l;
  }

  lemma LinesSkipped(lines: seq<Line>, l: Line, o: Options)
    requires LinesOk(lines, o) && !InPeriod(o, l)
    ensures LinesOk(lines + [l], o)
  {
    hide LineOk;
  }

  lemma AddKeepsAggregates(groups: map<Key, Aggregate>, lines: seq<Line>, l: Line, o: Options, b: Aggregate)
    requires Aggregates(groups, lines, o) && InPeriod(o, l) && LineOk(l)
    requires var a := Value(groups, Key(l.provider, l.model));
      var id := TrimSpace(l.externalId);
      b.records == a.records + 1 && b.cost == a.cost + l.cost && Added(a.usage, l.usage, b.usage)
      && b.ids == a.ids + (if id != "" then {id} else {})
    ensures Aggregates(groups[Key(l.provider, l.model) := b], lines + [l], o)
  {
    hide LineOk, Records, Cost, Quantity, ExternalIds, TrimSpace;
    var own := Key(l.provider, l.model);
    OkAmounts(l);
    forall key
      ensures key in groups[own := b] <==> Records(lines + [l], o, key) > 0
      ensures Tallies(Value(groups[own := b], key), lines + [l], o, key)
    {
      RecordAppended(lines, l, o, key);
      assert Tallies(Value(groups, key), lines, o, key);
    }
  }

  lemma SkipKeepsAggregates(groups: map<Key, Aggregate>, lines: seq<Line>, l: Line, o: Options)
    requires Aggregates(groups, lines, o) && Aggregable(lines, o) && !InPeriod(o, l)
    ensures Aggregates(groups, lines + [l], o) && Aggregable(lines + [l], o)
  {
    hide LineOk, Records, Cost, Quantity, ExternalIds, TrimSpace;
    LinesSkipped(lines, l, o);
    forall key
      ensures key in groups <==> Records(lines + [l], o, key) > 0
      ensures Tallies(Value(groups, key), lines + [l], o, key)
    {
      RecordAppended(lines, l, o, key);
      assert Tallies(Value(groups, key), lines, o, key);
    }
    forall key
      ensures Cost(lines + [l], o, key) <= MAX_INT64
    {
      RecordAppended(lines, l, o, key);
      assert Cost(lines, o, key) <= MAX_INT64;
    }
    forall key, unit
      ensures Quantity(lines + [l], o, key, unit) <= MAX_INT64
    {
      RecordAppended(lines, l, o, key);
      assert Quantity(lines, o, key, unit) <= MAX_INT64;
    }
  }

  lemma PrefixAggregable(lines: seq<Line>, n: nat, o: Options)
    requires n <= |lines| && Aggregable(lines, o)
    ensures Aggregable(lines[..n], o)
  {
    hide LineOk;
    assert lines == lines[..n] + lines[n..];
    forall key
      ensures Cost(lines[..n], o, key) <= MAX_INT64
    {
      TotalOfConcat(lines[..n], lines[n..], CostOf(o, key));
      assert Cost(lines, o, key) <= MAX_INT64;
    }
    forall key, unit
      ensures Quantity(lines[..n], o, key, unit) <= MAX_INT64
    {
      TotalOfConcat(lines[..n], lines[n..], UnitOf(o, key, unit));
      assert Quantity(lines, o, key, unit) <= MAX_INT64;
    }
  }

  lemma NothingAggregates(o: Options)
    ensures Aggregates(map[], [], o) && Aggregable([], o)
  {
  }

  /** One source, record by record; None if a record of the period is refused or a sum overflows. */
  method Aggregated(lines: seq<Line>, o: Options) returns (res: Option<map<Key, Aggregate>>)
    ensures res.Some? <==> Aggregable(lines, o)
    ensures res.Some? ==> Aggregates(res.value, lines, o)
  {
    hide Aggregates, Aggregable, LineOk, AddFits, Added, TrimSpace;
    var groups: map<Key, Aggregate> := map[];
    NothingAggregates(o);
    for i := 0 to |lines|
      invariant Aggregates(groups, lines[..i], o) && Aggregable(lines[..i], o)
    {
      var l := lines[i];
      assert lines[..i + 1] == lines[..i] + [l];
      if !InPeriod(o, l) {
        SkipKeepsAggregates(groups, lines[..i], l, o);
        continue;
      }
      var added := Add(groups, l);
      AddsIfAggregable(groups, lines[..i], l, o);
      if added == None {
        if Aggregable(lines, o) {
          PrefixAggregable(lines, i + 1, o);
        }
        return None;
      }
      AddKeepsAggregates(groups, lines[..i], l, o, Value(added.value, Key(l.provider, l.model)));
      groups := added.value;
    }
    assert lines[..|lines|] == lines;
    return Some(groups);
  }

  // The report

  datatype Status = Match | StatementOnly | LedgerOnly | CostMismatch | UsageMismatch

  datatype Side = Side(records: nat, cost: int, usage: B.Usage, externalIds: nat)

  /** One provider and model; amounts are kept as numbers. */
  datatype Group = Group(
    provider: string, model: string, status: Status, ledger: Side, statement: Side,
    costDelta: int, usageDelta: B.Usage, matched: nat)

  datatype Report = Report(since: int, until: int, tolerance: int, matches: bool, groups: seq<Group>)

  function KeyOf(g: Group): Key {
    Key(g.provider, g.model)
  }

  predicate KeyLess(a: Key, b: Key) {
    if a.provider == b.provider then Less(a.model, b.model) else Less(a.provider, b.provider)
  }

  function Abs(n: int): int {
    if n < 0 then -n else n
  }

  /** A side of a group: exact sums, with no unit of quantity zero. */
  ghost predicate IsSide(side: Side, lines: seq<Line>, o: Options, key: Key) {
    && side.records == Records(lines, o, key) && side.cost == Cost(lines, o, key)
    && side.externalIds == |ExternalIds(lines, o, key)|
    && B.Normalized(side.usage) == side.usage
    && forall unit :: B.At(side.usage, unit) == Quantity(lines, o, key, unit)
  }

  /** What the two sides' sums say about a group. */
  ghost predicate IsStatus(status: Status, ledger: Side, statement: Side, o: Options) {
    status == if ledger.records == 0 then StatementOnly
              else if statement.records == 0 then LedgerOnly
              else if Abs(statement.cost - ledger.cost) > o.tolerance then CostMismatch
              else if ledger.usage != statement.usage then UsageMismatch
              else Match
  }

  ghost predicate IsDelta(delta: B.Usage, ledger: B.Usage, statement: B.Usage) {
    B.Normalized(delta) == delta && forall unit :: B.At(delta, unit) == B.At(statement, unit) - B.At(ledger, unit)
  }

  ghost predicate IsGroup(g: Group, entries: seq<Line>, statement: seq<Line>, o: Options) {
    && IsSide(g.ledger, entries, o, KeyOf(g)) && IsSide(g.statement, statement, o, KeyOf(g))
    && IsStatus(g.status, g.ledger, g.statement, o)
    && g.costDelta == g.statement.cost - g.ledger.cost && IsDelta(g.usageDelta, g.ledger.usage, g.statement.usage)
    && g.matched == |ExternalIds(entries, o, KeyOf(g)) * ExternalIds(statement, o, KeyOf(g))|
  }

  function Keys(groups: seq<Group>): seq<Key> {
    seq(|groups|, i requires 0 <= i < |groups| => KeyOf(groups[i]))
  }

  ghost predicate HasRecords(entries: seq<Line>, statement: seq<Line>, o: Options, key: Key) {
    Records(entries, o, key) > 0 || Records(statement, o, key) > 0
  }

  /** Each key with a record of the period is listed once, in order, with its group. */
  ghost predicate IsReport(r: Report, entries: seq<Line>, statement: seq<Line>, o: Options) {
    && r.since == o.since && r.until == o.until && r.tolerance == o.tolerance
    && Increasing(Keys(r.groups), KeyLess)
    && (forall key :: key in Keys(r.groups) <==> HasRecords(entries, statement, o, key))
    && (forall i :: 0 <= i < |r.groups| ==> IsGroup(r.groups[i], entries, statement, o))
    && (r.matches <==> forall i :: 0 <= i < |r.groups| ==> r.groups[i].status == Match)
  }

  lemma KeyLessIsStrictTotal()
    ensures StrictTotal(KeyLess)
  {
    hide Less;
    LessIsStrictTotal();
  }

  /** Statement minus ledger, unit by unit; no sum can leave the int64 range. */
  method UsageDelta(ledger: B.Usage, statement: B.Usage) returns (res: Option<B.Usage>)
    requires forall unit :: 0 <= B.At(ledger, unit) <= MAX_INT64 && 0 <= B.At(statement, unit) <= MAX_INT64
    ensures res.Some? && IsDelta(res.value, ledger, statement)
  {
    var out: B.Usage := map[];
    var rest := ledger.Keys;
    while rest != {}
      invariant rest <= ledger.Keys
      invariant forall unit :: B.At(out, unit) == if unit in rest then 0 else -B.At(ledger, unit)
      decreases rest
    {
      var unit :| unit in rest;
      rest := rest - {unit};
      out := out[unit := Wrap(-ledger[unit])];
      assert B.At(ledger, unit) == ledger[unit];
    }
    rest := statement.Keys;
    while rest != {}
      invariant rest <= statement.Keys
      invariant forall unit ::
        B.At(out, unit) == (if unit in rest then 0 else B.At(statement, unit)) - B.At(ledger, unit)
      decreases rest
    {
      var unit :| unit in rest;
      rest := rest - {unit};
      assert B.At(statement, unit) == statement[unit];
      if B.At(out, unit) > MAX_INT64 - statement[unit] {
        return None;
      }
      out := out[unit := Wrap(B.At(out, unit) + statement[unit])];
    }
    return Some(B.Normalized(out));
  }

  /** left - right, or None where the difference would leave the int64 range. */
  method SubtractNanos(left: Nanos, right: Nanos) returns (res: Option<Nanos>)
    ensures res == if Fits(left - right) then Some(left - right) else None
  {
    if right > 0 && left < MIN_INT64 + right {
      return None;
    }
    if right < 0 && left > MAX_INT64 + right {
      return None;
    }
    return Some(left - right);
  }

  function SideOf(a: Aggregate): Side {
    Side(a.records, a.cost, B.Normalized(a.usage), |a.ids|)
  }

  lemma SideIs(a: Aggregate, lines: seq<Line>, o: Options, key: Key)
    requires Tallies(a, lines, o, key)
    ensures IsSide(SideOf(a), lines, o, key)
  {
    hide Records, Cost, Quantity, ExternalIds;
  }

  lemma DeltaIsEmpty(delta: B.Usage, ledger: B.Usage, statement: B.Usage)
    requires IsDelta(delta, ledger, statement)
    ensures |delta| > 0 <==> B.Normalized(ledger) != B.Normalized(statement)
  {
    if delta != map[] {
      var unit :| unit in delta;
      assert B.At(delta, unit) != 0 by {
        assert unit in B.Normalized(delta);
      }
      assert B.At(B.Normalized(ledger), unit) != B.At(B.Normalized(statement), unit);
    } else {
      forall unit
        ensures B.At(B.Normalized(ledger), unit) == B.At(B.Normalized(statement), unit)
      {
        assert B.At(delta, unit) == 0;
      }
      SameUsage(B.Normalized(ledger), B.Normalized(statement));
    }
  }

  lemma SameUsage(u: B.Usage, v: B.Usage)
    requires B.Normalized(u) == u && B.Normalized(v) == v && forall unit :: B.At(u, unit) == B.At(v, unit)
    ensures u == v
  {
    forall unit
      ensures unit in u <==> unit in v
      ensures unit in u ==> u[unit] == v[unit]
    {
      assert unit in B.Normalized(u) <==> B.At(u, unit) != 0;
      assert unit in B.Normalized(v) <==> B.At(v, unit) != 0;
    }
  }

  function LedgerLines(entries: seq<Ledger.Entry>): seq<Line> {
    seq(|entries|, i requires 0 <= i < |entries| => LedgerLine(entries[i]))
  }

  function GroupStatus(left: Aggregate, right: Aggregate, costDelta: int, usageDelta: B.Usage, tolerance: int): Status {
    if left.records == 0 then StatementOnly
    else if right.records == 0 then LedgerOnly
    else if Abs(costDelta) > tolerance then CostMismatch
    else if |usageDelta| > 0 then UsageMismatch
    else Match
  }

  lemma TalliesFit(a: Aggregate, lines: seq<Line>, o: Options, key: Key)
    requires Tallies(a, lines, o, key) && Aggregable(lines, o)
    ensures 0 <= a.cost <= MAX_INT64 && forall unit :: 0 <= B.At(a.usage, unit) <= MAX_INT64
  {
    hide Records, Cost, Quantity, ExternalIds;
  }

  method BuildGroup(key: Key, left: Aggregate, right: Aggregate, ghost entries: seq<Line>, ghost statement: seq<Line>,
                    o: Options)
    returns (res: Option<Group>)
    requires Aggregable(entries, o) && Aggregable(statement, o)
    requires Tallies(left, entries, o, key) && Tallies(right, statement, o, key)
    ensures res.Some? && KeyOf(res.value) == key && IsGroup(res.value, entries, statement, o)
  {
    hide Records, Cost, Quantity, ExternalIds, Aggregable, B.Normalized, Tallies;
    TalliesFit(left, entries, o, key);
    TalliesFit(right, statement, o, key);
    var costDelta := SubtractNanos(right.cost, left.cost);
    if costDelta == None {
      return None;
    }
    var usageDelta := UsageDelta(left.usage, right.usage);
    if usageDelta == None {
      return None;
    }
    var status := GroupStatus(left, right, costDelta.value, usageDelta.value, o.tolerance);
    SideIs(left, entries, o, key);
    SideIs(right, statement, o, key);
    DeltaIsEmpty(usageDelta.value, left.usage, right.usage);
    DeltaOfSides(usageDelta.value, left.usage, right.usage);
    IdsOf(left, entries, o, key);
    IdsOf(right, statement, o, key);
    return Some(Group(key.provider, key.model, status, SideOf(left), SideOf(right), costDelta.value, usageDelta.value,
                      |left.ids * right.ids|));
  }

  lemma IdsOf(a: Aggregate, lines: seq<Line>, o: Options, key: Key)
    requires Tallies(a, lines, o, key)
    ensures a.ids == ExternalIds(lines, o, key)
  {
  }

  lemma DeltaOfSides(delta: B.Usage, ledger: B.Usage, statement: B.Usage)
    requires IsDelta(delta, ledger, statement)
    ensures IsDelta(delta, B.Normalized(ledger), B.Normalized(statement))
  {
  }

  lemma KeysHaveRecords(left: map<Key, Aggregate>, right: map<Key, Aggregate>, entries: seq<Line>, statement: seq<Line>,
                        o: Options)
    requires Aggregates(left, entries, o) && Aggregates(right, statement, o)
    ensures forall key :: key in left.Keys + right.Keys <==> HasRecords(entries, statement, o, key)
  {
    hide Records, Tallies;
  }

  /** A report, or None when the options are wrong, a record is refused or a sum overflows. */
  method Build(ledger: seq<Ledger.Entry>, statement: seq<Line>, o: Options) returns (res: Option<Report>)
    ensures res.Some? <==> OptionsOk(o) && Aggregable(LedgerLines(ledger), o) && Aggregable(statement, o)
    ensures res.Some? ==> IsReport(res.value, LedgerLines(ledger), statement, o)
  {
    hide Aggregable, Aggregates, IsGroup, HasRecords, LedgerLine, KeyLess;
    if !OptionsOk(o) {
      return None;
    }
    var entries := LedgerLines(ledger);
    var left := Aggregated(entries, o);
    if left == None {
      return None;
    }
    var right := Aggregated(statement, o);
    if right == None {
      return None;
    }
    KeysHaveRecords(left.value, right.value, entries, statement, o);
    KeyLessIsStrictTotal();
    var keys := Sorted(left.value.Keys + right.value.Keys, KeyLess);
    res := BuildGroups(keys, left.value, right.value, entries, statement, o);
  }

  lemma KeysAppended(groups: seq<Group>, g: Group)
    ensures Keys(groups + [g]) == Keys(groups) + [KeyOf(g)]
  {
  }

  method BuildGroups(keys: seq<Key>, left: map<Key, Aggregate>, right: map<Key, Aggregate>,
                     ghost entries: seq<Line>, ghost statement: seq<Line>, o: Options) returns (res: Option<Report>)
    requires Aggregable(entries, o) && Aggregable(statement, o)
    requires Aggregates(left, entries, o) && Aggregates(right, statement, o)
    requires Increasing(keys, KeyLess) && forall key :: key in keys <==> HasRecords(entries, statement, o, key)
    ensures res.Some? && IsReport(res.value, entries, statement, o)
  {
    hide Aggregable, Aggregates, IsGroup, HasRecords, KeyLess, Keys, KeyOf, Increasing;
    var groups, matches := [], true;
    assert Keys([]) == keys[..0] by {
      NoKeys();
    }
    for i := 0 to |keys|
      invariant Keys(groups) == keys[..i] && |groups| == i
      invariant forall j :: 0 <= j < i ==> IsGroup(groups[j], entries, statement, o)
      invariant matches <==> forall j :: 0 <= j < i ==> groups[j].status == Match
    {
      KeyTallies(left, entries, o, keys[i]);
      KeyTallies(right, statement, o, keys[i]);
      var group := BuildGroup(keys[i], Value(left, keys[i]), Value(right, keys[i]), entries, statement, o);
      if group == None {
        return None;
      }
      if group.value.status != Match {
        matches := false;
      }
      KeysAppended(groups, group.value);
      assert keys[..i + 1] == keys[..i] + [keys[i]];
      ghost var before := groups;
      groups := groups + [group.value];
      assert groups[i] == group.value && forall j :: 0 <= j < i ==> groups[j] == before[j];
    }
    assert keys[..|keys|] == keys;
    return Some(Report(o.since, o.until, o.tolerance, matches, groups));
  }

  lemma NoKeys()
    ensures Keys([]) == []
  {
  }

  lemma KeyTallies(groups: map<Key, Aggregate>, lines: seq<Line>, o: Options, key: Key)
    requires Aggregates(groups, lines, o)
    ensures Tallies(Value(groups, key), lines, o, key)
  {
  }

  // What the report means

  lemma SidesAgree(a: Side, b: Side, m: seq<Line>, n: seq<Line>, o: Options, key: Key)
    requires multiset(m) == multiset(n) && IsSide(a, m, o, key) && IsSide(b, n, o, key)
    ensures a == b
  {
    SumsAgree(m, n, o, key);
    hide Records, Cost, Quantity, ExternalIds, B.Normalized;
    SameUsage(a.usage, b.usage);
  }

  lemma SumsAgree(m: seq<Line>, n: seq<Line>, o: Options, key: Key)
    requires multiset(m) == multiset(n)
    ensures Records(m, o, key) == Records(n, o, key) && Cost(m, o, key) == Cost(n, o, key)
    ensures forall unit :: Quantity(m, o, key, unit) == Quantity(n, o, key, unit)
    ensures ExternalIds(m, o, key) == ExternalIds(n, o, key)
  {
    hide Counts, TrimSpace;
    TotalOfPermutation(m, n, OneOf(o, key));
    TotalOfPermutation(m, n, CostOf(o, key));
    forall unit
      ensures Quantity(m, o, key, unit) == Quantity(n, o, key, unit)
    {
      TotalOfPermutation(m, n, UnitOf(o, key, unit));
    }
    SameMembers(m, n);
  }

  lemma SameMembers(m: seq<Line>, n: seq<Line>)
    requires multiset(m) == multiset(n)
    ensures forall l :: l in m <==> l in n
  {
    forall l
      ensures l in m <==> l in n
    {
      assert l in multiset(m) <==> l in multiset(n);
    }
  }

  /** Whether a source can be aggregated does not depend on the order of its records. */
  lemma AggregableInAnyOrder(m: seq<Line>, n: seq<Line>, o: Options)
    requires multiset(m) == multiset(n) && Aggregable(m, o)
    ensures Aggregable(n, o)
  {
    hide LineOk;
    SameMembers(m, n);
    forall i | 0 <= i < |n| && InPeriod(o, n[i])
      ensures LineOk(n[i])
    {
      assert n[i] in m;
    }
    forall key
      ensures Cost(n, o, key) <= MAX_INT64
    {
      TotalOfPermutation(m, n, CostOf(o, key));
      assert Cost(m, o, key) <= MAX_INT64;
    }
    forall key, unit
      ensures Quantity(n, o, key, unit) <= MAX_INT64
    {
      TotalOfPermutation(m, n, UnitOf(o, key, unit));
      assert Quantity(m, o, key, unit) <= MAX_INT64;
    }
  }

  lemma GroupsAgree(a: Group, b: Group, e: seq<Line>, f: seq<Line>, s: seq<Line>, t: seq<Line>, o: Options)
    requires multiset(e) == multiset(f) && multiset(s) == multiset(t)
    requires IsGroup(a, e, s, o) && IsGroup(b, f, t, o) && KeyOf(a) == KeyOf(b)
    ensures a == b
  {
    hide Records, Cost, Quantity, ExternalIds, IsSide, B.Normalized;
    SidesAgree(a.ledger, b.ledger, e, f, o, KeyOf(a));
    SidesAgree(a.statement, b.statement, s, t, o, KeyOf(a));
    SumsAgree(e, f, o, KeyOf(a));
    SumsAgree(s, t, o, KeyOf(a));
    SameUsage(a.usageDelta, b.usageDelta);
  }

  /** The report is a function of the records alone: reordering either source changes nothing in it. */
  lemma ReportInAnyOrder(a: Report, b: Report, e: seq<Line>, f: seq<Line>, s: seq<Line>, t: seq<Line>, o: Options)
    requires multiset(e) == multiset(f) && multiset(s) == multiset(t)
    requires IsReport(a, e, s, o) && IsReport(b, f, t, o)
    ensures a == b
  {
    hide Records, IsGroup, KeyLess;
    forall key
      ensures HasRecords(e, s, o, key) <==> HasRecords(f, t, o, key)
    {
      SumsAgree(e, f, o, key);
      SumsAgree(s, t, o, key);
    }
    hide HasRecords;
    KeyLessIsStrictTotal();
    IncreasingIsUnique(Keys(a.groups), Keys(b.groups), KeyLess);
    assert |a.groups| == |Keys(a.groups)| == |Keys(b.groups)| == |b.groups|;
    forall i | 0 <= i < |a.groups|
      ensures a.groups[i] == b.groups[i]
    {
      assert KeyOf(a.groups[i]) == Keys(a.groups)[i] == Keys(b.groups)[i] == KeyOf(b.groups[i]);
      GroupsAgree(a.groups[i], b.groups[i], e, f, s, t, o);
    }
    assert a.groups == b.groups;
  }

  /** Both sides have records, their costs differ within the tolerance and their usage is equal. */
  ghost predicate SumsMatch(entries: seq<Line>, statement: seq<Line>, o: Options, key: Key) {
    && Records(entries, o, key) > 0 && Records(statement, o, key) > 0
    && Abs(Cost(statement, o, key) - Cost(entries, o, key)) <= o.tolerance
    && forall unit :: Quantity(entries, o, key, unit) == Quantity(statement, o, key, unit)
  }

  lemma SameQuantities(a: Side, b: Side, entries: seq<Line>, statement: seq<Line>, o: Options, key: Key)
    requires IsSide(a, entries, o, key) && IsSide(b, statement, o, key)
    ensures a.usage == b.usage
       <==> forall unit :: Quantity(entries, o, key, unit) == Quantity(statement, o, key, unit)
  {
    hide Records, Cost, Quantity, ExternalIds, B.Normalized;
    if forall unit :: Quantity(entries, o, key, unit) == Quantity(statement, o, key, unit) {
      SameUsage(a.usage, b.usage);
    } else {
      var unit :| Quantity(entries, o, key, unit) != Quantity(statement, o, key, unit);
      assert B.At(a.usage, unit) != B.At(b.usage, unit);
    }
  }

  /** A group matches exactly when the exact sums of its two sides do. */
  lemma MatchExactly(g: Group, entries: seq<Line>, statement: seq<Line>, o: Options)
    requires IsGroup(g, entries, statement, o)
    ensures g.status == Match <==> SumsMatch(entries, statement, o, KeyOf(g))
  {
    hide Records, Cost, Quantity, ExternalIds, IsSide, IsDelta;
    SameQuantities(g.ledger, g.statement, entries, statement, o, KeyOf(g));
    SideTotals(g.ledger, entries, o, KeyOf(g));
    SideTotals(g.statement, statement, o, KeyOf(g));
  }

  lemma SideTotals(side: Side, lines: seq<Line>, o: Options, key: Key)
    requires IsSide(side, lines, o, key)
    ensures side.records == Records(lines, o, key) && side.cost == Cost(lines, o, key)
  {
  }

  // What is counted, entry by entry

  /** The period starts at `since` and stops before `until`. */
  predicate Within(o: Options, at: int) {
    o.since <= at && at < o.until
  }

  /** The options are right when both ends are given, some instant lies between them and no tolerance is negative. */
  lemma PeriodExactly(o: Options)
    ensures OptionsOk(o) <==> o.since != 0 && o.until != 0 && 0 <= o.tolerance && exists at :: Within(o, at)
    ensures o.since < o.until ==> Within(o, o.since) && !Within(o, o.until)
  {
    if o.since < o.until {
      assert Within(o, o.since);
    }
  }

  predicate EntryCounts(o: Options, key: Key, e: Ledger.Entry) {
    Within(o, e.createdAt.instant) && e.provider == key.provider && e.model == key.model
  }

  function EntryOne(o: Options, key: Key): Ledger.Entry -> nat {
    (e: Ledger.Entry) => if EntryCounts(o, key, e) then 1 else 0
  }

  function EntryCost(o: Options, key: Key): Ledger.Entry -> nat {
    (e: Ledger.Entry) => if EntryCounts(o, key, e) && e.cost >= 0 then e.cost else 0
  }

  function EntryUnit(o: Options, key: Key, unit: string): Ledger.Entry -> nat {
    (e: Ledger.Entry) =>
      var quantity := B.At(Ledger.ItemizedUsage(e), unit);
      if EntryCounts(o, key, e) && quantity >= 0 then quantity else 0
  }

  /** On the ledger's side a group counts, prices and itemizes the period's entries of its provider and model. */
  lemma LedgerSums(entries: seq<Ledger.Entry>, o: Options, key: Key, unit: string)
    ensures Records(LedgerLines(entries), o, key) == Total(entries, EntryOne(o, key))
    ensures Cost(LedgerLines(entries), o, key) == Total(entries, EntryCost(o, key))
    ensures Quantity(LedgerLines(entries), o, key, unit) == Total(entries, EntryUnit(o, key, unit))
  {
    hide Ledger.ItemizedUsage;
    var lines := LedgerLines(entries);
    TotalCongruent(entries, EntryOne(o, key), lines, OneOf(o, key));
    TotalCongruent(entries, EntryCost(o, key), lines, CostOf(o, key));
    TotalCongruent(entries, EntryUnit(o, key, unit), lines, UnitOf(o, key, unit));
  }

  /** And it names the external ids of those entries, without white space around them. */
  lemma LedgerIds(entries: seq<Ledger.Entry>, o: Options, key: Key)
    ensures forall id :: id in ExternalIds(LedgerLines(entries), o, key) <==>
      && id != ""
      && exists i ::
           0 <= i < |entries| && EntryCounts(o, key, entries[i]) && TrimSpace(entries[i].externalId) == id
  {
    hide TrimSpace, Ledger.ItemizedUsage;
    var lines := LedgerLines(entries);
    forall i | 0 <= i < |entries|
      ensures Counts(o, key, lines[i]) <==> EntryCounts(o, key, entries[i])
      ensures lines[i] in lines && lines[i].externalId == entries[i].externalId
    {
    }
  }

  lemma StatementIds(lines: seq<Line>, o: Options, key: Key)
    ensures forall id :: id in ExternalIds(lines, o, key) <==>
      && id != ""
      && exists i :: 0 <= i < |lines| && LineCounts(o, key, lines[i]) && TrimSpace(lines[i].externalId) == id
  {
    hide TrimSpace;
    forall i | 0 <= i < |lines|
      ensures Counts(o, key, lines[i]) <==> LineCounts(o, key, lines[i])
    {
    }
  }

  predicate LineCounts(o: Options, key: Key, l: Line) {
    Within(o, l.at) && l.provider == key.provider && l.model == key.model
  }

  /** The statement's side does the same for its rows. */
  lemma StatementCounts(o: Options, key: Key, l: Line)
    ensures Counts(o, key, l) <==> LineCounts(o, key, l)
    ensures OneOf(o, key)(l) == if LineCounts(o, key, l) then 1 else 0
    ensures LineCounts(o, key, l) && l.cost >= 0 ==> CostOf(o, key)(l) == l.cost
    ensures forall unit :: LineCounts(o, key, l) && B.At(l.usage, unit) >= 0 ==>
      UnitOf(o, key, unit)(l) == B.At(l.usage, unit)
  {
  }

  /** Groups come in the order of their providers, and of their models within one. */
  lemma GroupsInOrder(r: Report, entries: seq<Line>, statement: seq<Line>, o: Options, i: nat, j: nat)
    requires IsReport(r, entries, statement, o) && i < j < |r.groups|
    ensures var a, b := r.groups[i], r.groups[j];
      if a.provider == b.provider then Less(a.model, b.model) else Less(a.provider, b.provider)
  {
    hide IsGroup, HasRecords;
    assert KeyLess(Keys(r.groups)[i], Keys(r.groups)[j]);
  }

  /** What a record of the period must have. */
  predicate Acceptable(l: Line) {
    TrimSpace(l.provider) != "" && TrimSpace(l.model) != "" && l.cost >= 0 && B.UsageOk(l.usage)
  }

  /** A source is refused for a record of its period that lacks any of it, and for sums past an int64; nothing else. */
  lemma RefusedExactly(lines: seq<Line>, o: Options)
    ensures !Aggregable(lines, o) <==>
      || (exists i :: 0 <= i < |lines| && Within(o, lines[i].at) && !Acceptable(lines[i]))
      || (exists key :: Cost(lines, o, key) > 0x7fff_ffff_ffff_ffff)
      || (exists key, unit :: Quantity(lines, o, key, unit) > 0x7fff_ffff_ffff_ffff)
  {
    hide TrimSpace, B.UsageOk, Cost, Quantity;
    assert forall i :: 0 <= i < |lines| ==> (Acceptable(lines[i]) <==> LineOk(lines[i]));
  }

  /** A group's status is the first of these that holds, and the tolerance goes both ways. */
  lemma StatusExactly(g: Group, entries: seq<Line>, statement: seq<Line>, o: Options)
    requires IsGroup(g, entries, statement, o)
    ensures var excess := Cost(statement, o, KeyOf(g)) - Cost(entries, o, KeyOf(g));
      var near := excess <= o.tolerance && -excess <= o.tolerance;
      && g.costDelta == excess
      && (g.status == StatementOnly <==> Records(entries, o, KeyOf(g)) == 0)
      && (g.status == LedgerOnly <==> Records(entries, o, KeyOf(g)) > 0 && Records(statement, o, KeyOf(g)) == 0)
      && (g.status in {CostMismatch, UsageMismatch, Match} ==> (g.status == CostMismatch <==> !near))
  {
    hide Records, Cost, Quantity, ExternalIds, IsDelta;
    SideTotals(g.ledger, entries, o, KeyOf(g));
    SideTotals(g.statement, statement, o, KeyOf(g));
    hide IsSide;
  }
}
