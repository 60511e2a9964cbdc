/** The hash-chained ledger: sealing, storing, scanning and verifying entries (internal/ledger/entry.go). */
module Ledger {
  import opened Wrappers
  import opened Int64
  import opened Text
  import opened Sequences
  import opened Ordering
  import Billing

  const GENESIS_HASH := "0000000000000000000000000000000000000000000000000000000000000000"
  const INVALID := "!invalid:"
  const VERSION_LEGACY := 1
  const VERSION_USAGE := 2

  /** An instant, in nanoseconds after Go's zero time, read on a clock `zone` seconds east of UTC. */
  datatype Time = Time(instant: int, zone: int) {
    predicate IsZero() {
      instant == 0
    }

    function Utc(): Time {
      Time(instant, 0)
    }
  }

  /** An injective rendering of the instant, standing in for RFC 3339 in UTC. */
  function FormatTime(t: Time): string {
    Integer(t.Utc().instant)
  }

  function ParseTime(s: string): Option<Time> {
    match ParseInteger(s)
    case None => None
    case Some(instant) => Some(Time(instant, 0))
  }

  datatype Entry = Entry(
    hashVersion: int, seqNo: int, run: string, principal: string, provider: string, model: string,
    inputTokens: int, outputTokens: int, usage: Billing.Usage, externalId: string,
    pricingRevision: string, priceEffective: Time, cost: int, estimated: bool, createdAt: Time,
    prevHash: string, hash: string)

  function Version(e: Entry): int {
    if e.hashVersion == 0 then VERSION_LEGACY else e.hashVersion
  }

  function ItemizedUsage(e: Entry): Billing.Usage {
    if |e.usage| == 0 then Billing.TokenUsage(e.inputTokens, 0, 0, 0, e.outputTokens)
    else Billing.Normalized(e.usage)
  }

  /** What the usage field of the hashed text may be: the canonical text, or the complaint about any offending unit. */
  ghost predicate MayRead(e: Entry, text: string) {
    var u := ItemizedUsage(e);
    if Billing.UsageOk(u) then text == Billing.Canonical(u)
    else exists unit :: Billing.Offends(u, unit) && text == INVALID + Billing.Complaint(u, unit)
  }

  /** That field when the units are met in increasing order. */
  function UsageText(e: Entry): string {
    var u := ItemizedUsage(e);
    if Billing.UsageOk(u) then Billing.Canonical(u) else
    SomeOffend(u);
    LessIsStrictTotal();
    var first := Sorted(Billing.Offenders(u), Less)[0];
    OffenderOffends(u, first);
    INVALID + Billing.Complaint(u, first)
  }

  lemma SomeOffend(u: Billing.Usage)
    requires !Billing.UsageOk(u)
    ensures Billing.Offenders(u) != {}
  {
    var unit :| unit in u && !(Billing.UnitOk(unit) && 0 <= u[unit]);
    assert unit in Billing.Offenders(u);
  }

  lemma OffenderOffends(u: Billing.Usage, unit: string)
    ensures unit in Billing.Offenders(u) <==> Billing.Offends(u, unit)
  {
  }

  function OptionalTime(t: Time): string {
    if t.IsZero() then "" else FormatTime(t)
  }

  function SummaryFields(e: Entry): seq<string> {
    [Integer(e.seqNo), e.run, e.principal, e.provider, e.model, Integer(e.inputTokens),
     Integer(e.outputTokens), Integer(e.cost), if e.estimated then "true" else "false"]
  }

  function UsageFields(e: Entry, text: string): seq<string> {
    [Integer(Version(e)), text, e.externalId, e.pricingRevision, OptionalTime(e.priceEffective)]
  }

  /** The eleven hashed fields of the legacy form, or the sixteen of the usage form. */
  function FieldsWith(e: Entry, text: string, prevHash: string): seq<string> {
    SummaryFields(e) + (if Version(e) >= VERSION_USAGE then UsageFields(e, text) else [])
    + [FormatTime(e.createdAt), prevHash]
  }

  function Fields(e: Entry, prevHash: string): seq<string> {
    FieldsWith(e, UsageText(e), prevHash)
  }

  function Netstring(field: string): string {
    Natural(|field|) + (":" + field)
  }

  function Netstrings(fields: seq<string>): string {
    if fields == [] then "" else Netstring(fields[0]) + Netstrings(fields[1..])
  }

  function HashOf(digest: string -> string, e: Entry, prevHash: string): string {
    digest(Netstrings(Fields(e, prevHash)))
  }

  /** A text that the entry may be hashed from. */
  ghost predicate MayWrite(e: Entry, prevHash: string, written: string) {
    exists text :: MayRead(e, text) && written == Netstrings(FieldsWith(e, text, prevHash))
  }

  ghost predicate MayHash(digest: string -> string, e: Entry, prevHash: string, hash: string) {
    exists written :: MayWrite(e, prevHash, written) && hash == digest(written)
  }

  function Seal(digest: string -> string, e: Entry, prevHash: string): Entry {
    var versioned := if e.hashVersion == 0 then e.(hashVersion := VERSION_USAGE) else e;
    var itemized := if versioned.hashVersion >= VERSION_USAGE
                    then versioned.(usage := ItemizedUsage(versioned)) else versioned;
    itemized.(prevHash := prevHash, hash := HashOf(digest, itemized, prevHash))
  }

  predicate EntryOk(e: Entry) {
    var version := if e.hashVersion == 0 then VERSION_USAGE else e.hashVersion;
    && version in {VERSION_LEGACY, VERSION_USAGE}
    && (version >= VERSION_USAGE ==> Billing.UsageOk(ItemizedUsage(e)))
  }

  /** Feeds the fields to the hasher one after the other. */
  method ComputeHash(digest: string -> string, e: Entry, prevHash: string) returns (hash: string)
    ensures MayHash(digest, e, prevHash, hash)
  {
    hide Netstring, FieldsWith, Billing.Canonical, Billing.Complaint, Billing.Offends, Billing.UsageOk, ItemizedUsage,
      Netstrings;
    var json := Billing.CanonicalJson(ItemizedUsage(e));
    var text := if json.Ok? then json.value else INVALID + json.error;
    assert MayRead(e, text);
    var fields := FieldsWith(e, text, prevHash);
    var written := "";
    assert fields[0..] == fields && "" + Netstrings(fields) == Netstrings(fields);
    for i := 0 to |fields|
      invariant Netstrings(fields) == written + Netstrings(fields[i..])
    {
      NetstringsFrom(fields, i);
      Regroup(written, Netstring(fields[i]), Netstrings(fields[i + 1..]));
      written := written + Netstring(fields[i]);
    }
    NoNetstrings();
    assert fields[|fields|..] == [] && written + "" == written;
    hash := digest(written);
  }

  lemma NoNetstrings()
    ensures Netstrings([]) == ""
  {
  }

  lemma NetstringsFrom(fields: seq<string>, i: nat)
    requires i < |fields|
    ensures Netstrings(fields[i..]) == Netstring(fields[i]) + Netstrings(fields[i + 1..])
  {
    assert fields[i..][0] == fields[i] && fields[i..][1..] == fields[i + 1..];
  }

  // Unique decodability

  lemma ColonSplits(d: string, x: string, d': string, x': string)
    requires AllDigits(d) && AllDigits(d') && d + (":" + x) == d' + (":" + x')
    ensures d == d' && x == x'
  {
    var s, s' := d + (":" + x), d' + (":" + x');
    assert s[|d|] == ':' && s'[|d'|] == ':';
    assert forall i :: 0 <= i < |d| ==> IsDigit(s[i]);
    assert forall i :: 0 <= i < |d'| ==> IsDigit(s'[i]);
    assert s[..|d|] == d && s'[..|d|] == d';
    assert s[|d| + 1..] == x && s'[|d| + 1..] == x';
  }

  lemma NetstringSplits(a: string, x: string, b: string, y: string)
    requires Netstring(a) + x == Netstring(b) + y
    ensures a == b && x == y
  {
    assert Netstring(a) + x == Natural(|a|) + (":" + (a + x));
    assert Netstring(b) + y == Natural(|b|) + (":" + (b + y));
    ColonSplits(Natural(|a|), a + x, Natural(|b|), b + y);
    assert |a| == |b|;
    assert (a + x)[..|a|] == a && (b + y)[..|a|] == b;
    assert (a + x)[|a|..] == x && (b + y)[|a|..] == y;
  }

  /** Length prefixes make the serialisation uniquely decodable, whatever the fields hold. */
  lemma {:induction false} NetstringsInjective(a: seq<string>, b: seq<string>)
    requires Netstrings(a) == Netstrings(b)
    ensures a == b
  {
    hide Natural, NaturalValue;
    if a != [] && b != [] {
      NetstringSplits(a[0], Netstrings(a[1..]), b[0], Netstrings(b[1..]));
      NetstringsInjective(a[1..], b[1..]);
      assert a == [a[0]] + a[1..] && b == [b[0]] + b[1..];
    }
  }

  /** What two entries with equal hashed fields agree on. */
  ghost predicate SameContents(a: Entry, b: Entry) {
    && a.seqNo == b.seqNo && a.run == b.run && a.principal == b.principal
    && a.provider == b.provider && a.model == b.model
    && a.inputTokens == b.inputTokens && a.outputTokens == b.outputTokens
    && a.cost == b.cost && a.estimated == b.estimated
    && a.createdAt.instant == b.createdAt.instant
    && (Version(a) >= VERSION_USAGE <==> Version(b) >= VERSION_USAGE)
    && (Version(a) >= VERSION_USAGE ==>
          && Version(a) == Version(b) && a.externalId == b.externalId
          && a.pricingRevision == b.pricingRevision
          && a.priceEffective.instant == b.priceEffective.instant
          && (Auditable(a) && Auditable(b) ==> ItemizedUsage(a) == ItemizedUsage(b)))
  }

  /** The usage that the hash covers is a valid map of int64 quantities. */
  ghost predicate Auditable(e: Entry) {
    Billing.UsageOk(ItemizedUsage(e)) && Billing.FitsInt64(ItemizedUsage(e))
  }

  lemma SameUsage(a: Entry, b: Entry, text: string)
    requires Auditable(a) && Auditable(b) && MayRead(a, text) && MayRead(b, text)
    ensures ItemizedUsage(a) == ItemizedUsage(b)
  {
    hide Billing.Canonical;
    var u, v := ItemizedUsage(a), ItemizedUsage(b);
    Billing.CanonicalIsExact(u, v);
    assert Billing.Normalized(u) == u && Billing.Normalized(v) == v;
  }

  /** A chunk of the field list is determined by the whole, whichever texts the usage fields were written as. */
  lemma FieldsDetermine(a: Entry, s: string, p: string, b: Entry, t: string, q: string)
    requires MayRead(a, s) && MayRead(b, t) && FieldsWith(a, s, p) == FieldsWith(b, t, q)
    ensures p == q && SameContents(a, b)
  {
    hide Integer, MayRead, ItemizedUsage;
    var f, g := FieldsWith(a, s, p), FieldsWith(b, t, q);
    assert |f| == if Version(a) >= VERSION_USAGE then 16 else 11;
    assert |g| == if Version(b) >= VERSION_USAGE then 16 else 11;
    var x, y := SummaryFields(a), SummaryFields(b);
    assert x == f[..9] && y == g[..9];
    assert x[0] == y[0] && x[1] == y[1] && x[2] == y[2] && x[3] == y[3] && x[4] == y[4] && x[5] == y[5];
    assert x[6] == y[6] && x[7] == y[7] && x[8] == y[8];
    assert f[|f| - 1] == p && g[|g| - 1] == q;
    assert f[|f| - 2] == FormatTime(a.createdAt) && g[|g| - 2] == FormatTime(b.createdAt);
    IntegerInjective(a.seqNo, b.seqNo);
    IntegerInjective(a.inputTokens, b.inputTokens);
    IntegerInjective(a.outputTokens, b.outputTokens);
    IntegerInjective(a.cost, b.cost);
    IntegerInjective(a.createdAt.instant, b.createdAt.instant);
    assert a.estimated == b.estimated by {
      assert |"true"| != |"false"|;
    }
    if Version(a) >= VERSION_USAGE {
      assert UsageFields(a, s) == f[9..14] && UsageFields(b, t) == g[9..14];
      UsageFieldsDetermine(a, s, b, t);
    }
  }

  lemma UsageFieldsDetermine(a: Entry, s: string, b: Entry, t: string)
    requires MayRead(a, s) && MayRead(b, t)
    requires forall i :: 0 <= i < 5 ==> UsageFields(a, s)[i] == UsageFields(b, t)[i]
    ensures Version(a) == Version(b) && a.externalId == b.externalId && a.pricingRevision == b.pricingRevision
    ensures a.priceEffective.instant == b.priceEffective.instant
    ensures Auditable(a) && Auditable(b) ==> ItemizedUsage(a) == ItemizedUsage(b)
  {
    hide Integer, MayRead, ItemizedUsage;
    var f, g := UsageFields(a, s), UsageFields(b, t);
    assert f[0] == g[0] && f[1] == g[1] && f[2] == g[2] && f[3] == g[3] && f[4] == g[4];
    IntegerInjective(Version(a), Version(b));
    IntegerNotEmpty(a.priceEffective.instant);
    IntegerNotEmpty(b.priceEffective.instant);
    if !a.priceEffective.IsZero() && !b.priceEffective.IsZero() {
      IntegerInjective(a.priceEffective.instant, b.priceEffective.instant);
    }
    if Auditable(a) && Auditable(b) {
      SameUsage(a, b, s);
    }
  }

  lemma IntegerNotEmpty(n: int)
    ensures Integer(n) != ""
  {
  }

  // When the hash is determined

  /** The usage field of the hashed text is the same on every computation. */
  ghost predicate Settled(e: Entry) {
    forall s, t :: MayRead(e, s) && MayRead(e, t) ==> s == t
  }

  lemma UsageTextMayBeRead(e: Entry)
    ensures MayRead(e, UsageText(e))
  {
    hide Billing.Canonical, Billing.Complaint, ItemizedUsage, Billing.Offends;
    var u := ItemizedUsage(e);
    if !Billing.UsageOk(u) {
      SomeOffend(u);
      LessIsStrictTotal();
      var first := Sorted(Billing.Offenders(u), Less)[0];
      OffenderOffends(u, first);
    }
  }

  /** Hashing an entry twice is sure to read the same usage field exactly when at most one unit offends. */
  lemma SettledExactly(e: Entry)
    ensures Settled(e) <==> |Billing.Offenders(ItemizedUsage(e))| <= 1
  {
    hide Billing.Canonical, Billing.Complaint, ItemizedUsage;
    var u := ItemizedUsage(e);
    var offenders := Billing.Offenders(u);
    if |offenders| > 1 {
      var a :| a in offenders;
      assert |offenders - {a}| == |offenders| - 1;
      var b :| b in offenders - {a};
      TwoOffend(u, a, b);
      assert MayRead(e, INVALID + Billing.Complaint(u, a)) && MayRead(e, INVALID + Billing.Complaint(u, b));
    } else {
      forall s, t | MayRead(e, s) && MayRead(e, t)
        ensures s == t
      {
        if !Billing.UsageOk(u) {
          var a :| Billing.Offends(u, a) && s == INVALID + Billing.Complaint(u, a);
          var b :| Billing.Offends(u, b) && t == INVALID + Billing.Complaint(u, b);
          AtMostOne(offenders, a, b);
        }
      }
    }
  }

  /** Such usage: two units in capitals, either of which the complaint may be about. */
  lemma CapitalsAreNotSettled(e: Entry)
    requires e.usage == map["A" := 1, "B" := 1]
    ensures MayRead(e, CapitalText('A')) && MayRead(e, CapitalText('B')) && !Settled(e)
  {
    hide Billing.Complaint, Billing.UsageOk, Billing.UnitOk, CapitalText;
    var u := ItemizedUsage(e);
    assert u == e.usage by {
      assert "A" in e.usage;
    }
    Capital(u, 'A');
    Capital(u, 'B');
    TwoOffend(u, "A", "B");
  }

  /** The usage field of an entry with a unit in capitals. */
  function CapitalText(c: char): string {
    INVALID + ("billing: invalid usage unit \"" + ([c] + "\""))
  }

  lemma Capital(u: Billing.Usage, c: char)
    requires 'A' <= c <= 'Z' && [c] in u
    ensures Billing.Offends(u, [c]) && INVALID + Billing.Complaint(u, [c]) == CapitalText(c)
  {
    assert !Billing.UnitChar([c][0], true);
    assert Billing.Quoting([c]) == Billing.QuotedChar(c) + Billing.Quoting([c][1..]) == [c];
  }

  lemma TwoOffend(u: Billing.Usage, a: string, b: string)
    requires Billing.Offends(u, a) && Billing.Offends(u, b) && a != b
    ensures !Billing.UsageOk(u) && INVALID + Billing.Complaint(u, a) != INVALID + Billing.Complaint(u, b)
  {
    hide Billing.Complaint;
    if INVALID + Billing.Complaint(u, a) == INVALID + Billing.Complaint(u, b) {
      Billing.SamePrefix(INVALID, Billing.Complaint(u, a), Billing.Complaint(u, b));
      Billing.ComplaintsDiffer(u, a, b);
    }
  }

  lemma AtMostOne(s: set<string>, a: string, b: string)
    requires |s| <= 1 && a in s && b in s
    ensures a == b
  {
    assert |s - {a}| == |s| - 1;
    assert s - {a} == {};
  }

  /** In the usage form that is when the whole hashed text is determined; the legacy form does not hash usage. */
  lemma WrittenIsDetermined(e: Entry, prevHash: string)
    ensures (forall x, y :: MayWrite(e, prevHash, x) && MayWrite(e, prevHash, y) ==> x == y)
       <==> Version(e) < VERSION_USAGE || |Billing.Offenders(ItemizedUsage(e))| <= 1
  {
    hide MayRead, Netstrings, SummaryFields;
    SettledExactly(e);
    if Version(e) >= VERSION_USAGE && !Settled(e) {
      var s, t :| MayRead(e, s) && MayRead(e, t) && s != t;
      var x, y := Netstrings(FieldsWith(e, s, prevHash)), Netstrings(FieldsWith(e, t, prevHash));
      assert MayWrite(e, prevHash, x) && MayWrite(e, prevHash, y);
      if x == y {
        NetstringsInjective(FieldsWith(e, s, prevHash), FieldsWith(e, t, prevHash));
        UsageFieldAt(e, s, prevHash);
        UsageFieldAt(e, t, prevHash);
      }
    }
  }

  lemma UsageFieldAt(e: Entry, text: string, prevHash: string)
    requires Version(e) >= VERSION_USAGE
    ensures |FieldsWith(e, text, prevHash)| == 16 && FieldsWith(e, text, prevHash)[10] == text
  {
  }

  /** Every computation of the entry's hash gives the same. */
  ghost predicate Determined(e: Entry) {
    Version(e) < VERSION_USAGE || |Billing.Offenders(ItemizedUsage(e))| <= 1
  }

  lemma HashMayBe(digest: string -> string, e: Entry, prevHash: string)
    ensures MayHash(digest, e, prevHash, HashOf(digest, e, prevHash))
  {
    hide MayRead, UsageText, Netstrings, FieldsWith;
    UsageTextMayBeRead(e);
    assert MayWrite(e, prevHash, Netstrings(Fields(e, prevHash)));
  }

  lemma DeterminedHash(digest: string -> string, e: Entry, prevHash: string, hash: string)
    requires Determined(e) && MayHash(digest, e, prevHash, hash)
    ensures hash == HashOf(digest, e, prevHash)
  {
    hide MayRead, UsageText, Netstrings, FieldsWith;
    UsageTextMayBeRead(e);
    WrittenIsDetermined(e, prevHash);
    assert MayWrite(e, prevHash, Netstrings(Fields(e, prevHash)));
  }

  // The chain

  function HeadHash(entries: seq<Entry>): string {
    if entries == [] then GENESIS_HASH else entries[|entries| - 1].hash
  }

  ghost predicate LinkOk(digest: string -> string, entries: seq<Entry>, i: nat)
    requires i < |entries|
  {
    && entries[i].prevHash == HeadHash(entries[..i])
    && MayHash(digest, entries[i], entries[i].prevHash, entries[i].hash)
  }

  /** What VerifyChain may accept. */
  ghost predicate Linked(digest: string -> string, entries: seq<Entry>) {
    forall i :: 0 <= i < |entries| ==> LinkOk(digest, entries, i)
  }

  ghost predicate AllDetermined(entries: seq<Entry>) {
    forall i :: 0 <= i < |entries| ==> Determined(entries[i])
  }

  datatype ChainError = ChainError(seqNo: int, want: string, got: string)

  /** The report is about the entry at i, everything before it links, and it says which of the two checks failed. */
  ghost predicate BreaksAt(digest: string -> string, entries: seq<Entry>, i: int, r: ChainError) {
    && 0 <= i < |entries| && (forall j :: 0 <= j < i ==> LinkOk(digest, entries, j))
    && var e := entries[i];
    && r.seqNo == e.seqNo && r.want != r.got
    && if e.prevHash != HeadHash(entries[..i]) then r.want == HeadHash(entries[..i]) && r.got == e.prevHash
       else r.got == e.hash && MayHash(digest, e, e.prevHash, r.want)
  }

  method VerifyChain(digest: string -> string, entries: seq<Entry>) returns (r: Option<ChainError>)
    ensures r == None ==> Linked(digest, entries)
    ensures r.Some? ==> exists i :: BreaksAt(digest, entries, i, r.value)
    ensures AllDetermined(entries) ==> (r == None <==> Linked(digest, entries))
  {
    hide MayHash, Determined;
    var prev := GENESIS_HASH;
    for i := 0 to |entries|
      invariant prev == HeadHash(entries[..i])
      invariant forall j :: 0 <= j < i ==> LinkOk(digest, entries, j)
    {
      var e := entries[i];
      if e.prevHash != prev {
        r := Some(ChainError(e.seqNo, prev, e.prevHash));
        assert BreaksAt(digest, entries, i, r.value) && !LinkOk(digest, entries, i);
        return;
      }
      var want := ComputeHash(digest, e, e.prevHash);
      if e.hash != want {
        r := Some(ChainError(e.seqNo, want, e.hash));
        assert BreaksAt(digest, entries, i, r.value);
        DeterminedBreak(digest, entries, i, want);
        return;
      }
      prev := e.hash;
      assert entries[..i + 1][|entries[..i + 1]| - 1] == e;
    }
    return None;
  }

  /** A hash that fails to match once fails always, if it is determined. */
  lemma DeterminedBreak(digest: string -> string, entries: seq<Entry>, i: nat, want: string)
    requires i < |entries| && entries[i].hash != want && MayHash(digest, entries[i], entries[i].prevHash, want)
    ensures AllDetermined(entries) ==> !LinkOk(digest, entries, i)
  {
    hide MayHash, HashOf;
    if AllDetermined(entries) && LinkOk(digest, entries, i) {
      DeterminedHash(digest, entries[i], entries[i].prevHash, want);
      DeterminedHash(digest, entries[i], entries[i].prevHash, entries[i].hash);
    }
  }

  /** An entry of each chain, hashed from different texts to the same digest. */
  ghost predicate Collision(digest: string -> string, a: seq<Entry>, b: seq<Entry>) {
    exists i, j, x, y :: 0 <= i < |a| && 0 <= j < |b| && Collide(digest, a[i], x, b[j], y)
  }

  ghost predicate Collide(digest: string -> string, a: Entry, x: string, b: Entry, y: string) {
    MayWrite(a, a.prevHash, x) && MayWrite(b, b.prevHash, y) && x != y && digest(x) == digest(y)
  }

  /** An entry of the chain whose digest is the genesis hash. */
  ghost predicate GenesisPreimage(digest: string -> string, a: seq<Entry>) {
    exists i :: 0 <= i < |a| && MayHash(digest, a[i], a[i].prevHash, GENESIS_HASH)
  }

  lemma LinkedPrefix(digest: string -> string, entries: seq<Entry>, n: nat)
    requires Linked(digest, entries) && n <= |entries|
    ensures Linked(digest, entries[..n])
  {
    hide MayHash;
    forall i | 0 <= i < n
      ensures LinkOk(digest, entries[..n], i)
    {
      assert LinkOk(digest, entries, i);
      assert entries[..n][..i] == entries[..i];
    }
  }

  lemma BreaksExtend(digest: string -> string, a: seq<Entry>, m: nat, b: seq<Entry>, n: nat)
    requires m <= |a| && n <= |b|
    ensures Collision(digest, a[..m], b[..n]) ==> Collision(digest, a, b)
    ensures GenesisPreimage(digest, a[..m]) ==> GenesisPreimage(digest, a)
    ensures GenesisPreimage(digest, b[..n]) ==> GenesisPreimage(digest, b)
  {
    hide MayHash, Collide;
    if Collision(digest, a[..m], b[..n]) {
      var i, j, x, y :| 0 <= i < m && 0 <= j < n && Collide(digest, a[..m][i], x, b[..n][j], y);
      assert Collide(digest, a[i], x, b[j], y);
    }
    if GenesisPreimage(digest, a[..m]) {
      var i :| 0 <= i < m && MayHash(digest, a[..m][i], a[..m][i].prevHash, GENESIS_HASH);
      assert a[..m][i] == a[i];
    }
    if GenesisPreimage(digest, b[..n]) {
      var j :| 0 <= j < n && MayHash(digest, b[..n][j], b[..n][j].prevHash, GENESIS_HASH);
      assert b[..n][j] == b[j];
    }
  }

  lemma WrittenDetermines(a: Entry, p: string, b: Entry, q: string, written: string)
    requires MayWrite(a, p, written) && MayWrite(b, q, written)
    ensures p == q && SameContents(a, b)
  {
    hide FieldsWith, Netstrings, SameContents, MayRead;
    var s :| MayRead(a, s) && written == Netstrings(FieldsWith(a, s, p));
    var t :| MayRead(b, t) && written == Netstrings(FieldsWith(b, t, q));
    NetstringsInjective(FieldsWith(a, s, p), FieldsWith(b, t, q));
    FieldsDetermine(a, s, p, b, t, q);
  }

  /** Two linked entries with the same hash agree in every hashed field, or texts of theirs collide. */
  lemma SameHashSameContents(digest: string -> string, a: Entry, b: Entry)
    requires MayHash(digest, a, a.prevHash, a.hash) && MayHash(digest, b, b.prevHash, b.hash) && a.hash == b.hash
    ensures (a.prevHash == b.prevHash && SameContents(a, b)) || exists x, y :: Collide(digest, a, x, b, y)
  {
    hide SameContents, MayWrite;
    var x :| MayWrite(a, a.prevHash, x) && a.hash == digest(x);
    var y :| MayWrite(b, b.prevHash, y) && b.hash == digest(y);
    if x == y {
      WrittenDetermines(a, a.prevHash, b, b.prevHash, x);
    } else {
      assert Collide(digest, a, x, b, y);
    }
  }

  /**
   * Two accepted chains with the same head hash have the same length and agree entry by entry in every
   * hashed field, unless an entry of one and an entry of the other exhibit a collision of the digest, or
   * an entry of one digests to the genesis hash.
   */
  lemma {:induction false} TamperEvidence(digest: string -> string, a: seq<Entry>, b: seq<Entry>)
    requires Linked(digest, a) && Linked(digest, b) && HeadHash(a) == HeadHash(b)
    ensures
      || Collision(digest, a, b) || GenesisPreimage(digest, a) || GenesisPreimage(digest, b)
      || (|a| == |b| && forall i :: 0 <= i < |a| ==> a[i].hash == b[i].hash && SameContents(a[i], b[i]))
    decreases |a|
  {
    hide MayHash, SameContents, Collide;
    if a != [] {
      assert LinkOk(digest, a, |a| - 1);
    }
    if b != [] {
      assert LinkOk(digest, b, |b| - 1);
    }
    if a != [] && b != [] {
      var m, n := |a| - 1, |b| - 1;
      SameHashSameContents(digest, a[m], b[n]);
      if a[m].prevHash == b[n].prevHash && SameContents(a[m], b[n]) {
        LinkedPrefix(digest, a, m);
        LinkedPrefix(digest, b, n);
        TamperEvidence(digest, a[..m], b[..n]);
        BreaksExtend(digest, a, m, b, n);
      }
    }
  }

  // Storage

  /** A stored ledger row; the column checks make its counts non-negative and its version 1 or 2. */
  datatype Row = Row(
    seqNo: int, run: string, principal: string, provider: string, model: string,
    inputTokens: nat, outputTokens: nat, cost: nat, estimated: int, createdAt: string,
    prevHash: string, hash: string, hashVersion: int, usageJson: string,
    externalId: string, pricingRevision: string, priceEffective: string)

  /** The row appendLedgerTx inserts for a sealed entry. */
  function RowOf(e: Entry): Row
    requires 0 <= e.inputTokens && 0 <= e.outputTokens && 0 <= e.cost
  {
    Row(e.seqNo, e.run, e.principal, e.provider, e.model, e.inputTokens, e.outputTokens, e.cost,
        if e.estimated then 1 else 0, FormatTime(e.createdAt), e.prevHash, e.hash, e.hashVersion,
        Billing.Canonical(ItemizedUsage(e)), e.externalId, e.pricingRevision, OptionalTime(e.priceEffective))
  }

  /** scanEntry: the entry a stored row reads back as. */
  function Scan(row: Row): Option<Entry> {
    match (ParseTime(row.createdAt),
           if row.usageJson == "" then Some(map[]) else Billing.Parsed(row.usageJson),
           if row.priceEffective == "" then Some(Time(0, 0)) else ParseTime(row.priceEffective))
    case (Some(created), Some(usage), Some(effective)) =>
      Some(Entry(row.hashVersion, row.seqNo, row.run, row.principal, row.provider, row.model,
                 row.inputTokens, row.outputTokens, usage, row.externalId, row.pricingRevision, effective,
                 row.cost, row.estimated != 0, created, row.prevHash, row.hash))
    case _ => None
  }

  /** The Go types of an entry's counts: int64, or a map of int64. */
  predicate InRange(e: Entry) {
    && Fits(e.inputTokens) && Fits(e.outputTokens)
    && Billing.FitsInt64(e.usage)
  }

  /** appendLedgerTx's preparation: a missing creation time becomes now, on the UTC clock. */
  function Prepared(e: Entry, now: Time, seqNo: int): Entry {
    e.(createdAt := (if e.createdAt.IsZero() then now else e.createdAt).Utc(), seqNo := seqNo)
  }

  lemma ItemizedIsNormal(e: Entry)
    ensures Billing.Normalized(ItemizedUsage(e)) == ItemizedUsage(e)
    ensures InRange(e) ==> Billing.FitsInt64(ItemizedUsage(e))
  {
  }

  /** Itemizing again what was stored changes nothing, even when the itemized usage is empty. */
  lemma ItemizedAgain(e: Entry, back: Entry)
    requires back.usage == ItemizedUsage(e) && Billing.Normalized(e.usage) == e.usage
    requires back.inputTokens == e.inputTokens && back.outputTokens == e.outputTokens
    ensures ItemizedUsage(back) == ItemizedUsage(e)
  {
    ItemizedIsNormal(e);
    if |e.usage| == 0 {
      assert e.usage == map[];
    } else {
      assert |back.usage| == |e.usage|;
    }
  }

  lemma TimeReadsBack(t: Time)
    ensures ParseTime(FormatTime(t)) == Some(t.Utc())
    ensures (if OptionalTime(t) == "" then Some(Time(0, 0)) else ParseTime(OptionalTime(t))) == Some(t.Utc())
  {
    hide Integer, ParseInteger;
    ParseOfInteger(t.instant);
    IntegerNotEmpty(t.instant);
  }

  lemma UsageReadsBack(u: Billing.Usage)
    requires Billing.UsageOk(u) && Billing.FitsInt64(u) && Billing.Normalized(u) == u
    ensures Billing.Canonical(u) != "" && Billing.Parsed(Billing.Canonical(u)) == Some(u)
  {
    hide Billing.Parsed, Billing.Members, Billing.SortedUnits;
    Billing.RoundTrip(u);
  }

  /** The entry a sealed one is scanned back as: itemized, and on the UTC clock. */
  function Restored(e: Entry): Entry {
    e.(usage := ItemizedUsage(e), createdAt := e.createdAt.Utc(), priceEffective := e.priceEffective.Utc())
  }

  lemma ScanRestores(e: Entry)
    requires InRange(e) && 0 <= e.inputTokens && 0 <= e.outputTokens && 0 <= e.cost
    requires Billing.UsageOk(ItemizedUsage(e))
    ensures Scan(RowOf(e)) == Some(Restored(e))
  {
    hide Billing.Canonical, Billing.Parsed, Integer, ParseInteger, ItemizedUsage, FormatTime, OptionalTime, ParseTime;
    ItemizedIsNormal(e);
    UsageReadsBack(ItemizedUsage(e));
    TimeReadsBack(e.createdAt);
    TimeReadsBack(e.priceEffective);
  }

  lemma RestoredFields(e: Entry, prevHash: string)
    requires Version(e) >= VERSION_USAGE ==> Billing.Normalized(e.usage) == e.usage
    ensures Fields(Restored(e), prevHash) == Fields(e, prevHash)
  {
    hide Billing.Canonical, Billing.Normalized, Billing.TokenUsage, Integer, ItemizedUsage;
    if Version(e) >= VERSION_USAGE {
      ItemizedAgain(e, Restored(e));
    }
  }

  lemma SealedIs(digest: string -> string, e: Entry, prevHash: string)
    requires EntryOk(e)
    ensures var sealed := Seal(digest, e, prevHash);
      && sealed.hash == HashOf(digest, sealed, prevHash)
      && (Version(sealed) >= VERSION_USAGE ==> Billing.Normalized(sealed.usage) == sealed.usage)
      && (InRange(e) ==> InRange(sealed))
      && sealed.inputTokens == e.inputTokens && sealed.outputTokens == e.outputTokens && sealed.cost == e.cost
  {
    hide Billing.Canonical, Billing.TokenUsage, Integer, Netstrings;
    ItemizedIsNormal(e);
  }

  /** A sealed entry, stored and scanned back, still carries the hash of its contents. */
  lemma StoredEntryVerifies(digest: string -> string, e: Entry, prevHash: string)
    requires InRange(e) && EntryOk(e) && 0 <= e.inputTokens && 0 <= e.outputTokens && 0 <= e.cost
    requires Billing.UsageOk(ItemizedUsage(Seal(digest, e, prevHash)))
    ensures var sealed := Seal(digest, e, prevHash);
      && 0 <= sealed.inputTokens && 0 <= sealed.outputTokens && 0 <= sealed.cost
      && Scan(RowOf(sealed)).Some?
      && var back := Scan(RowOf(sealed)).value;
      && back.hash == HashOf(digest, back, prevHash) == sealed.hash
      && SameContents(sealed, back)
  {
    hide Billing.Canonical, Billing.Normalized, Netstrings, Seal, ItemizedUsage, InRange, Scan, RowOf, Fields;
    var sealed := Seal(digest, e, prevHash);
    SealedIs(digest, e, prevHash);
    ScanRestores(sealed);
    RestoredFields(sealed, prevHash);
    if Version(sealed) >= VERSION_USAGE {
      ItemizedAgain(sealed, Restored(sealed));
    }
  }

  // The stored chain

  ghost predicate RowOk(digest: string -> string, rows: seq<Row>, i: nat)
    requires i < |rows|
  {
    && rows[i].seqNo == i + 1 && Scan(rows[i]).Some?
    && rows[i].prevHash == (if i == 0 then GENESIS_HASH else rows[i - 1].hash)
    && rows[i].hash == HashOf(digest, Scan(rows[i]).value, rows[i].prevHash)
  }

  ghost predicate ChainOk(digest: string -> string, rows: seq<Row>) {
    forall i :: 0 <= i < |rows| ==> RowOk(digest, rows, i)
  }

  ghost predicate Readable(rows: seq<Row>) {
    forall i :: 0 <= i < |rows| ==> Scan(rows[i]).Some?
  }

  /** What LedgerEntries returns with an empty filter. */
  ghost function ScanAll(rows: seq<Row>): (entries: seq<Entry>)
    requires Readable(rows)
    ensures |entries| == |rows| && forall i :: 0 <= i < |rows| ==> entries[i] == Scan(rows[i]).value
  {
    seq(|rows|, i requires 0 <= i < |rows| => Scan(rows[i]).value)
  }

  /** What is read back has valid usage, so its hash is determined. */
  lemma ScannedIsDetermined(row: Row)
    requires Scan(row).Some?
    ensures Billing.UsageOk(ItemizedUsage(Scan(row).value)) && Determined(Scan(row).value)
  {
    hide Billing.Parsed, ParseTime;
    var e := Scan(row).value;
    if row.usageJson != "" {
      Billing.ParsedIsNormal(row.usageJson);
    }
    ItemizedStaysValid(e);
    NoOffenders(ItemizedUsage(e));
  }

  lemma ItemizedStaysValid(e: Entry)
    requires Billing.UsageOk(e.usage) && 0 <= e.inputTokens && 0 <= e.outputTokens
    ensures Billing.UsageOk(ItemizedUsage(e))
  {
  }

  lemma NoOffenders(u: Billing.Usage)
    requires Billing.UsageOk(u)
    ensures Billing.Offenders(u) == {}
  {
  }

  /** A stored chain passes every run of VerifyChain once scanned back, and is numbered from one. */
  lemma StoredChainVerifies(digest: string -> string, rows: seq<Row>)
    requires ChainOk(digest, rows)
    ensures Readable(rows) && Linked(digest, ScanAll(rows)) && AllDetermined(ScanAll(rows))
    ensures forall i :: 0 <= i < |rows| ==> ScanAll(rows)[i].seqNo == i + 1
  {
    hide HashOf, MayHash, ParseTime, Billing.Parsed, Determined;
    forall i | 0 <= i < |rows|
      ensures Scan(rows[i]).Some?
    {
      assert RowOk(digest, rows, i);
    }
    var entries := ScanAll(rows);
    forall i | 0 <= i < |rows|
      ensures LinkOk(digest, entries, i) && entries[i].seqNo == i + 1 && Determined(entries[i])
    {
      ScannedIsDetermined(rows[i]);
      assert RowOk(digest, rows, i);
      HashMayBe(digest, entries[i], entries[i].prevHash);
      if i > 0 {
        assert entries[..i][|entries[..i]| - 1] == entries[i - 1];
      }
    }
  }

  /** Appending the row of an entry sealed onto the head keeps the stored chain. */
  lemma AppendKeepsChain(digest: string -> string, rows: seq<Row>, e: Entry)
    requires ChainOk(digest, rows) && e.seqNo == |rows| + 1
    requires InRange(e) && EntryOk(e) && 0 <= e.inputTokens && 0 <= e.outputTokens && 0 <= e.cost
    requires var prev := if rows == [] then GENESIS_HASH else rows[|rows| - 1].hash;
      Billing.UsageOk(ItemizedUsage(Seal(digest, e, prev)))
    ensures var prev := if rows == [] then GENESIS_HASH else rows[|rows| - 1].hash;
      ChainOk(digest, rows + [RowOf(Seal(digest, e, prev))])
  {
    hide HashOf, ItemizedUsage, EntryOk, Billing.Canonical, Billing.Parsed, ParseTime, FormatTime;
    var prev := if rows == [] then GENESIS_HASH else rows[|rows| - 1].hash;
    StoredEntryVerifies(digest, e, prev);
    var rows' := rows + [RowOf(Seal(digest, e, prev))];
    forall i | 0 <= i < |rows'|
      ensures RowOk(digest, rows', i)
    {
      if i < |rows| {
        assert RowOk(digest, rows, i);
      }
    }
  }
}
