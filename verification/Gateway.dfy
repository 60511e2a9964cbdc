/** A request's hold: reserved before egress, then released or charged (internal/gateway/record.go, proxy.go). */
module Gateway {
  import opened Wrappers
  import opened Int64
  import opened Hierarchy
  import opened Tables
  import opened Changes
  import opened Outcomes
  import opened BudgetStore
  import opened Histories
  import Billing
  import Ledger
  import P = Pricing

  datatype Policy = Strict | BestEffort
  datatype Unenforceable = UnknownModel | NoOutputLimit

  /** Why strict enforcement refuses a request it could not bound, if it does. */
  function StrictUnenforceableReason(enforce: bool, policy: Policy, known: bool, q: P.Request): Option<Unenforceable> {
    if !enforce || policy != Strict then None
    else if !known then Some(UnknownModel)
    else if !q.noOutput && q.maxTokens <= 0 then Some(NoOutputLimit)
    else None
  }

  /** What strict enforcement lets through is priced from the book and holds exactly the caller's own output limit. */
  lemma StrictBoundIsTheCallers(known: bool, p: P.Price, q: P.Request)
    ensures StrictUnenforceableReason(true, Strict, known, q) == None
       <==> known && P.ReservedCounts(p, q).output == (if q.noOutput then 0 else q.maxTokens)
  {
  }

  /** Only strict enforcement refuses, and says first that the model is unknown, then that no limit was given. */
  lemma RefusedExactly(enforce: bool, policy: Policy, known: bool, q: P.Request)
    ensures var reason := StrictUnenforceableReason(enforce, policy, known, q);
      && (reason.Some? <==> enforce && policy == Strict && !(known && (q.noOutput || q.maxTokens > 0)))
      && (reason.Some? ==> (reason.value == UnknownModel <==> !known))
  {
  }

  /** Everything known about one completed request. */
  datatype Observation = Observation(
    principal: Id, provider: string, run: Id, model: string, request: P.Request,
    usage: P.Counts, usageReported: bool, complete: bool, upstreamOK: bool, reservation: Id, externalId: string)

  /** The price book's answer when the request completed. */
  datatype Lookup = Lookup(price: P.Price, known: bool, revision: string, effective: Ledger.Time)

  function ChargedCounts(obs: Observation, price: P.Price): P.Counts {
    if obs.usageReported then obs.usage else P.EstimatedCounts(price, obs.request, obs.complete)
  }

  /** The entry Record appends; the store numbers, dates and seals it. */
  function EntryOf(obs: Observation, found: Lookup, now: Ledger.Time): Ledger.Entry {
    var u := ChargedCounts(obs, found.price);
    Ledger.Entry(0, 0, obs.run, obs.principal, obs.provider, obs.model, Wrap(P.TotalInput(u)), u.output,
                 Billing.TokenUsage(u.input, u.cached, u.write5m, u.write1h, u.output), obs.externalId,
                 found.revision, found.effective, P.Cost(found.price, u),
                 !found.known || !obs.usageReported || !obs.complete, now, "", "")
  }

  predicate CountsFit(u: P.Counts) {
    Fits(u.input) && Fits(u.cached) && Fits(u.write5m) && Fits(u.write1h) && Fits(u.output)
  }

  /** The Go types of an observation's counts. */
  predicate ObservationFits(obs: Observation, found: Lookup) {
    CountsFit(obs.usage) && Fits(obs.request.maxTokens) && Fits(found.price.defaultMaxTokens)
  }

  lemma EstimateFits(p: P.Price, q: P.Request, complete: bool)
    requires Fits(q.maxTokens) && Fits(p.defaultMaxTokens)
    ensures CountsFit(P.EstimatedCounts(p, q, complete))
  {
  }

  lemma EntryFits(obs: Observation, found: Lookup, now: Ledger.Time)
    requires ObservationFits(obs, found)
    ensures Ledger.InRange(EntryOf(obs, found, now))
  {
    hide Wrap, P.EstimatedCounts, P.Cost;
    EstimateFits(found.price, obs.request, obs.complete);
  }

  // Which store call each outcome issues

  function Releasing(reservation: Id): Option<Call> {
    if reservation == "" then None else Some(ResolveReservation(reservation, Released))
  }

  function Recording(obs: Observation, found: Lookup, now: Ledger.Time): Option<Call> {
    if !obs.upstreamOK then None
    else if obs.model == "" then Releasing(obs.reservation)
    else if obs.reservation != "" then Some(SettleReservation(obs.reservation, EntryOf(obs, found, now), now))
    else Some(AppendLedger(EntryOf(obs, found, now), now))
  }

  /** The tables after at most one store call. */
  ghost predicate Follows(digest: string -> string, s: State, call: Option<Call>, t: State)
    requires Integrity(s)
  {
    if call == None then t == s else Answers(digest, s, call.value, t)
  }

  class Recorder {
    const store: Store

    constructor (store: Store)
      ensures this.store == store
    {
      this.store := store;
    }

    /** Asks for a hold of the request's upper bound. */
    method Reserve(id: Id, run: Id, lease: Option<Id>, price: P.Price, q: P.Request, enforce: bool, expiresAt: Instant)
      returns (res: Result<Decision, Error>)
      requires store.Valid()
      modifies store
      ensures store.Valid() && Integrity(old(store.Now()))
      ensures Reserved(old(store.Now()), Request(id, run, lease, P.HoldAmount(price, q), Pending, expiresAt), enforce,
                       res, store.Now())
    {
      hide Reserved, Integrity, P.HoldAmount;
      HoldAmountFits(price, q);
      var input := P.ReservationInputTokens(q.requestBytes);
      var output := 0;
      if !q.noOutput {
        output := P.ReservationTokens(q.maxTokens, price);
      }
      var amount := P.Cost(price, P.Counts(input, 0, 0, 0, output));
      HoldAmountIs(price, q);
      res := store.TryReserve(Request(id, run, lease, amount, Pending, expiresAt), enforce);
    }

    /** Drops a hold; a conflict means it was already resolved. */
    method Release(reservation: Id)
      requires store.Valid()
      modifies store
      ensures store.Valid() && Integrity(old(store.Now()))
      ensures Follows(store.digest, old(store.Now()), Releasing(reservation), store.Now())
    {
      hide Integrity;
      SafeIsForest(store.digest, store.Now());
      if reservation == "" {
        return;
      }
      var _ := store.ResolveReservation(reservation, Released);
    }

    /** Prices an observation and charges it; a failed store call is logged and swallowed. */
    method Record(obs: Observation, found: Lookup, now: Ledger.Time)
      requires store.Valid() && ObservationFits(obs, found)
      modifies store
      ensures store.Valid() && Integrity(old(store.Now()))
      ensures Follows(store.digest, old(store.Now()), Recording(obs, found, now), store.Now())
    {
      hide Integrity, EntryOf, Charged, Appended, Ledger.InRange;
      SafeIsForest(store.digest, store.Now());
      if !obs.upstreamOK {
        return;
      }
      if obs.model == "" {
        Release(obs.reservation);
        return;
      }
      var entry := EntryOf(obs, found, now);
      EntryFits(obs, found, now);
      if obs.reservation != "" {
        var _ := store.SettleReservation(obs.reservation, entry, now);
      } else {
        var _ := store.AppendLedger(entry, now);
      }
    }

    /** A transport failure or a non-2xx reply releases; the end of a 2xx body records. */
    method Finish(outcome: Outcome, found: Lookup, now: Ledger.Time)
      requires store.Valid() && (outcome.Replied? ==> ObservationFits(outcome.obs, found))
      modifies store
      ensures store.Valid() && Integrity(old(store.Now()))
      ensures Follows(store.digest, old(store.Now()), Resolution(outcome, found, now), store.Now())
    {
      hide Integrity, Recording, Releasing;
      match outcome {
        case Unreached(reservation) => Release(reservation);
        case Replied(status, obs) =>
          if !(200 <= status < 300) {
            Release(obs.reservation);
          } else if obs.run != "" {
            Record(obs, found, now);
          } else {
            SafeIsForest(store.digest, store.Now());
          }
      }
    }
  }

  lemma HoldAmountFits(price: P.Price, q: P.Request)
    ensures Fits(P.HoldAmount(price, q))
  {
  }

  lemma HoldAmountIs(price: P.Price, q: P.Request)
    ensures P.HoldAmount(price, q) == P.Cost(price, P.Counts(P.ReservationInputTokens(q.requestBytes), 0, 0, 0,
      if q.noOutput then 0 else P.ReservationTokens(q.maxTokens, price)))
  {
  }

  /** How a forwarded request ends: no reply, or a status and what its body showed. */
  datatype Outcome = Unreached(reservation: Id) | Replied(status: int, obs: Observation)

  predicate Succeeded(outcome: Outcome) {
    outcome.Replied? && 200 <= outcome.status < 300
  }

  function Resolution(outcome: Outcome, found: Lookup, now: Ledger.Time): Option<Call> {
    match outcome
    case Unreached(reservation) => Releasing(reservation)
    case Replied(status, obs) =>
      if !(200 <= status < 300) then Releasing(obs.reservation)
      else if obs.run != "" then Recording(obs, found, now) else None
  }

  function HoldId(outcome: Outcome): Id {
    if outcome.Unreached? then outcome.reservation else outcome.obs.reservation
  }

  /** A request that fails is never charged, and its hold stops counting if it still did. */
  lemma FailureIsFree(digest: string -> string, s: State, outcome: Outcome, found: Lookup, now: Ledger.Time, t: State)
    requires Integrity(s) && !Succeeded(outcome) && Follows(digest, s, Resolution(outcome, found, now), t)
    ensures t.ledger == s.ledger && t.settlements == s.settlements && |t.holds| == |s.holds|
    ensures HoldId(outcome) != "" ==> forall i :: 0 <= i < |s.holds| ==>
      t.holds[i] == if s.holds[i].id == HoldId(outcome) && s.holds[i].status == Pending
                    then s.holds[i].(status := Released) else s.holds[i]
  {
    hide Integrity, Locate;
    OnlyLocated(s, HoldId(outcome));
  }

  /** At most one row has an id: the one Locate finds. */
  lemma OnlyLocated(s: State, id: Id)
    requires Integrity(s)
    ensures forall i :: 0 <= i < |s.holds| ==> (s.holds[i].id == id <==> Locate(s.holds, id) == Some(i))
  {
    hide Forest, LinksOk, HoldsReferTo;
    forall i | 0 <= i < |s.holds| && s.holds[i].id == id
      ensures Locate(s.holds, id) == Some(i)
    {
      LocateIs(s.holds, i);
    }
  }

  /** A success for a named model only ever charges: whatever was not released before is not released by it. */
  lemma SuccessNeverReleases(digest: string -> string, s: State, outcome: Outcome, found: Lookup, now: Ledger.Time,
                             t: State)
    requires Integrity(s) && Succeeded(outcome) && outcome.obs.model != ""
    requires Follows(digest, s, Resolution(outcome, found, now), t)
    ensures |t.holds| == |s.holds|
    ensures forall i :: 0 <= i < |s.holds| && t.holds[i].status == Released ==> s.holds[i].status == Released
  {
    hide Integrity, Charge, EntryOf, Appendable, SealedEntry, AppendFault, Ledger.Scan, Ledger.InRange, ChargedAt,
      Locate, AppendUnreserved, Ledger.RowOf;
    var call := Resolution(outcome, found, now);
    if call.Some? && call.value.SettleReservation? {
      var res :| Charged(digest, s, call.value.id, call.value.e, now, res, t);
      if t != s {
        var i := Locate(s.holds, call.value.id).value;
        LocatedId(s.holds, call.value.id);
        ChargedIs(digest, s, i, call.value.e, now, res, t);
        ChargeParts(s, i, Ledger.RowOf(res.value), s.holds[i].status == Pending);
      }
    } else if call.Some? {
      var res :| Appended(digest, s, call.value.e, now, res, t);
      if res.Ok? {
        AppendedIs(digest, s, call.value.e, now, res, t);
      }
    }
  }

  lemma AppendedIs(digest: string -> string, s: State, e: Ledger.Entry, now: Ledger.Time,
                   res: Result<Ledger.Entry, Error>, t: State)
    requires Appended(digest, s, e, now, res, t)
    ensures t.holds == s.holds
  {
    hide Appendable, SealedEntry, Ledger.RowOf;
  }
}
