/**
 The audit hash chain: how an event's hash material is built, how chains are
 recorded per customer, what verification accepts, and what its acceptance
 proves. SHA-256 and ISO-8601 formatting are parameters.
 */
module AuditChain {
  import opened Common
  import opened Decimals

  /** `payload` is the JSON text of the event's payload object, `createdAt` milliseconds since 1970. */
  datatype AuditEvent = AuditEvent(
    eventId: string, customerId: Option<string>, eventType: string, eventVersion: int,
    actorType: string, actorId: string, correlationId: string,
    payload: string, previousEventHash: Option<string>, eventHash: string, createdAt: int)

  datatype Hashing = Hashing(sha256: string -> string, iso: int -> string)

  predicate IsHex(s: string) {
    forall c :: c in s ==> '0' <= c <= '9' || 'a' <= c <= 'f'
  }

  /** The instants with a four-digit year, 1970 to 9999. */
  predicate IsDate(t: int) {
    0 <= t < 253402300800000
  }

  /** A digest is 64 hex characters; an ISO timestamp has 24 and names its instant. Nothing is said about collisions. */
  ghost predicate Lawful(h: Hashing) {
    (forall m :: |h.sha256(m)| == 64 && IsHex(h.sha256(m))) &&
    (forall t :: IsDate(t) ==> |h.iso(t)| == 24) &&
    (forall t, u :: IsDate(t) && IsDate(u) && h.iso(t) == h.iso(u) ==> t == u)
  }

  function Text(previous: Option<string>): string {
    if previous.Some? then previous.value else ""
  }

  /** Five parts, one after the other, with nothing in between. */
  function Material(h: Hashing, e: AuditEvent): string {
    e.eventId + e.eventType + e.payload + Text(e.previousEventHash) + h.iso(e.createdAt)
  }

  function ComputeHash(h: Hashing, e: AuditEvent): string {
    h.sha256(Material(h, e))
  }

  predicate VerifiesItself(h: Hashing, e: AuditEvent) {
    ComputeHash(h, e) == e.eventHash
  }

  /** A type has no brace, a payload is an object's JSON text, a previous hash is a digest. */
  predicate WellFormed(e: AuditEvent) {
    && '{' !in e.eventType
    && |e.payload| >= 2 && e.payload[0] == '{' && e.payload[|e.payload| - 1] == '}'
    && (e.previousEventHash.Some? ==> |e.previousEventHash.value| == 64 && IsHex(e.previousEventHash.value))
    && IsDate(e.createdAt)
  }

  predicate SameHashedFields(a: AuditEvent, b: AuditEvent) {
    a.eventId == b.eventId && a.eventType == b.eventType && a.payload == b.payload &&
    a.previousEventHash == b.previousEventHash && a.createdAt == b.createdAt
  }

  // ---- Decoding the material ----

  lemma SameSplit<T>(a: seq<T>, b: seq<T>, c: seq<T>, d: seq<T>)
    requires a + b == c + d && |a| == |c|
    ensures a == c && b == d
  {
    assert a == (a + b)[..|a|] == (c + d)[..|c|] == c;
    assert b == (a + b)[|a|..] == (c + d)[|c|..] == d;
  }

  function FirstIndex(s: string, c: char): nat {
    if s == [] || s[0] == c then 0 else 1 + FirstIndex(s[1..], c)
  }

  lemma {:induction false} FirstIndexOfJoin(a: string, b: string, c: char)
    requires c !in a && b != [] && b[0] == c
    ensures FirstIndex(a + b, c) == |a|
  {
    if a == [] {
      assert a + b == b;
    } else {
      assert (a + b)[1..] == a[1..] + b;
      FirstIndexOfJoin(a[1..], b, c);
    }
  }

  /** Two texts split at the first brace split at the same place. */
  lemma SplitAtFirstBrace(a: string, b: string, c: string, d: string)
    requires a + b == c + d
    requires '{' !in a && '{' !in c && b != [] && d != [] && b[0] == '{' && d[0] == '{'
    ensures a == c && b == d
  {
    FirstIndexOfJoin(a, b, '{');
    FirstIndexOfJoin(c, d, '{');
    SameSplit(a, b, c, d);
  }

  function AfterLast(s: string, c: char): nat {
    if s == [] || s[|s| - 1] == c then |s| else AfterLast(s[..|s| - 1], c)
  }

  lemma {:induction false} AfterLastOfJoin(a: string, b: string, c: char)
    requires c !in b && a != [] && a[|a| - 1] == c
    ensures AfterLast(a + b, c) == |a|
  {
    if b == [] {
      assert a + b == a;
    } else {
      assert (a + b)[..|a + b| - 1] == a + b[..|b| - 1];
      AfterLastOfJoin(a, b[..|b| - 1], c);
    }
  }

  /** Two texts split after the last brace split at the same place. */
  lemma SplitAfterLastBrace(a: string, b: string, c: string, d: string)
    requires a + b == c + d
    requires '}' !in b && '}' !in d && a != [] && c != [] && a[|a| - 1] == '}' && c[|c| - 1] == '}'
    ensures a == c && b == d
  {
    AfterLastOfJoin(a, b, '}');
    AfterLastOfJoin(c, d, '}');
    SameSplit(a, b, c, d);
  }

  /** The last 24 characters, and what stands before them. */
  lemma CutTimestamp(h: Hashing, a: AuditEvent, b: AuditEvent)
    requires Lawful(h) && WellFormed(a) && WellFormed(b) && Material(h, a) == Material(h, b)
    ensures a.createdAt == b.createdAt
    ensures a.eventId + a.eventType + a.payload + Text(a.previousEventHash) == b.eventId + b.eventType + b.payload + Text(b.previousEventHash)
  {
    SameSplit(a.eventId + a.eventType + a.payload + Text(a.previousEventHash), h.iso(a.createdAt),
              b.eventId + b.eventType + b.payload + Text(b.previousEventHash), h.iso(b.createdAt));
  }

  lemma PreviousHashHasNoBrace(e: AuditEvent)
    requires WellFormed(e)
    ensures '}' !in Text(e.previousEventHash) && '{' !in Text(e.previousEventHash)
  {}

  /**
   Although nothing separates the parts, equal materials are equal in every
   part exactly when the two ids have the same length — as the fixed-length
   ids of the database-backed trail always do.
   */
  lemma MaterialDecodesIff(h: Hashing, a: AuditEvent, b: AuditEvent)
    requires Lawful(h) && WellFormed(a) && WellFormed(b) && '{' !in a.eventId && '{' !in b.eventId
    requires Material(h, a) == Material(h, b)
    ensures SameHashedFields(a, b) <==> |a.eventId| == |b.eventId|
    ensures a.eventId + a.eventType == b.eventId + b.eventType && a.payload == b.payload
            && a.previousEventHash == b.previousEventHash && a.createdAt == b.createdAt
  {
    CutTimestamp(h, a, b);
    PreviousHashHasNoBrace(a);
    PreviousHashHasNoBrace(b);
    SplitAfterLastBrace(a.eventId + a.eventType + a.payload, Text(a.previousEventHash),
                        b.eventId + b.eventType + b.payload, Text(b.previousEventHash));
    SplitAtFirstBrace(a.eventId + a.eventType, a.payload, b.eventId + b.eventType, b.payload);
    if |a.eventId| == |b.eventId| {
      SameSplit(a.eventId, a.eventType, b.eventId, b.eventType);
    }
  }

  /** The ids of the in-memory trail: `evt-1`, `evt-2`, ... */
  function CountedId(n: nat): string {
    "evt-" + Decimal(n)
  }

  predicate IsDigit(c: char) {
    '0' <= c <= '9'
  }

  predicate StartsWithDigit(s: string) {
    s != [] && IsDigit(s[0])
  }

  function LeadingDigits(s: string): nat {
    if StartsWithDigit(s) then 1 + LeadingDigits(s[1..]) else 0
  }

  lemma {:induction false} DecimalIsDigits(n: nat)
    ensures forall c :: c in Decimal(n) ==> IsDigit(c)
  {
    if n >= 10 {
      DecimalIsDigits(n / 10);
    }
  }

  lemma {:induction false} LeadingDigitsOfJoin(a: string, b: string)
    requires (forall c :: c in a ==> IsDigit(c)) && !StartsWithDigit(b)
    ensures LeadingDigits(a + b) == |a|
  {
    if a == [] {
      assert a + b == b;
    } else {
      assert (a + b)[1..] == a[1..] + b;
      LeadingDigitsOfJoin(a[1..], b);
    }
  }

  /** A number and a text that does not go on with a digit can be told apart. */
  lemma NumberEnds(m: nat, t: string, n: nat, u: string)
    requires Decimal(m) + t == Decimal(n) + u && !StartsWithDigit(t) && !StartsWithDigit(u)
    ensures Decimal(m) == Decimal(n) && t == u
  {
    DecimalIsDigits(m);
    DecimalIsDigits(n);
    LeadingDigitsOfJoin(Decimal(m), t);
    LeadingDigitsOfJoin(Decimal(n), u);
    SameSplit(Decimal(m), t, Decimal(n), u);
  }

  /** Counted ids decode as long as no event type begins with a digit. */
  lemma CountedIdsDecode(h: Hashing, a: AuditEvent, b: AuditEvent, m: nat, n: nat)
    requires Lawful(h) && WellFormed(a) && WellFormed(b) && Material(h, a) == Material(h, b)
    requires a.eventId == CountedId(m) && b.eventId == CountedId(n)
    requires !StartsWithDigit(a.eventType) && !StartsWithDigit(b.eventType)
    ensures SameHashedFields(a, b)
  {
    CountedIdHasNoBrace(m);
    CountedIdHasNoBrace(n);
    MaterialDecodesIff(h, a, b);
    assert a.eventId + a.eventType == "evt-" + (Decimal(m) + a.eventType);
    assert b.eventId + b.eventType == "evt-" + (Decimal(n) + b.eventType);
    SameSplit("evt-", Decimal(m) + a.eventType, "evt-", Decimal(n) + b.eventType);
    NumberEnds(m, a.eventType, n, b.eventType);
  }

  lemma CountedIdHasNoBrace(n: nat)
    ensures '{' !in CountedId(n)
  {
    DecimalIsDigits(n);
  }

  /** Without that, they do not: any event type can be confused with itself behind a digit. */
  lemma CountedIdsAreAmbiguous(h: Hashing, e: AuditEvent)
    requires Lawful(h) && WellFormed(e)
    ensures var a, b := e.(eventId := CountedId(1), eventType := "1" + e.eventType), e.(eventId := CountedId(11));
            WellFormed(a) && WellFormed(b) && !SameHashedFields(a, b) && ComputeHash(h, a) == ComputeHash(h, b)
  {
    assert Decimal(1) == "1" && Decimal(11) == "11";
    assert CountedId(1) + ("1" + e.eventType) == CountedId(11) + e.eventType;
  }

  /** How a trail names its events: fixed-length UUIDs, or a counter before types that begin with no digit. */
  datatype IdScheme = Uuids | Counted

  ghost predicate Named(scheme: IdScheme, e: AuditEvent) {
    match scheme
    case Uuids => |e.eventId| == 36 && '{' !in e.eventId
    case Counted => !StartsWithDigit(e.eventType) && exists n :: e.eventId == CountedId(n)
  }

  lemma NamedDecode(h: Hashing, scheme: IdScheme, a: AuditEvent, b: AuditEvent)
    requires Lawful(h) && WellFormed(a) && WellFormed(b) && Material(h, a) == Material(h, b)
    requires Named(scheme, a) && Named(scheme, b)
    ensures SameHashedFields(a, b)
  {
    match scheme
    case Uuids => MaterialDecodesIff(h, a, b);
    case Counted =>
      var m :| a.eventId == CountedId(m);
      var n :| b.eventId == CountedId(n);
      CountedIdsDecode(h, a, b, m, n);
  }

  // ---- Verification ----

  /** Event k fails its own hash or does not name its predecessor's. */
  predicate Offends(h: Hashing, events: seq<AuditEvent>, k: nat)
    requires k < |events|
  {
    !VerifiesItself(h, events[k]) ||
    events[k].previousEventHash != (if k == 0 then None else Some(events[k - 1].eventHash))
  }

  predicate Intact(h: Hashing, events: seq<AuditEvent>) {
    forall k :: 0 <= k < |events| ==> !Offends(h, events, k)
  }

  lemma IntactExtends(h: Hashing, events: seq<AuditEvent>, i: nat)
    requires i < |events| && Intact(h, events[..i])
    ensures Intact(h, events[..i + 1]) <==> !Offends(h, events, i)
  {
    var longer := events[..i + 1];
    assert Offends(h, longer, i) == Offends(h, events, i);
    forall k | 0 <= k < i ensures !Offends(h, longer, k) {
      assert !Offends(h, events[..i], k);
    }
  }

  lemma NotIntact(h: Hashing, events: seq<AuditEvent>, k: nat)
    requires k < |events| && Offends(h, events, k)
    ensures !Intact(h, events)
  {}

  /** The walk over a customer's events: accepts exactly the intact chains, and otherwise reports the first offender. */
  method VerifyChainIntegrity(h: Hashing, events: seq<AuditEvent>) returns (valid: bool, brokenAtEventId: Option<string>)
    ensures valid <==> Intact(h, events)
    ensures valid <==> brokenAtEventId == None
    ensures !valid ==> exists k :: 0 <= k < |events| && Offends(h, events, k) && Intact(h, events[..k])
                                   && brokenAtEventId == Some(events[k].eventId)
  {
    var expectedPreviousHash := None;
    for i := 0 to |events|
      invariant Intact(h, events[..i])
      invariant expectedPreviousHash == if i == 0 then None else Some(events[i - 1].eventHash)
    {
      if !VerifiesItself(h, events[i]) || events[i].previousEventHash != expectedPreviousHash {
        assert Offends(h, events, i);
        NotIntact(h, events, i);
        return false, Some(events[i].eventId);
      }
      expectedPreviousHash := Some(events[i].eventHash);
      IntactExtends(h, events, i);
    }
    assert events[..|events|] == events;
    return true, None;
  }

  lemma PrefixIntact(h: Hashing, events: seq<AuditEvent>, n: nat)
    requires Intact(h, events) && n <= |events|
    ensures Intact(h, events[..n])
  {
    forall k | 0 <= k < n ensures !Offends(h, events[..n], k) {
      assert !Offends(h, events, k);
    }
  }

  // ---- Tamper evidence ----

  ghost predicate AllNamed(scheme: IdScheme, events: seq<AuditEvent>) {
    forall i :: 0 <= i < |events| ==> WellFormed(events[i]) && Named(scheme, events[i])
  }

  predicate SameChain(a: seq<AuditEvent>, b: seq<AuditEvent>) {
    |a| == |b| && forall i :: 0 <= i < |a| ==> SameHashedFields(a[i], b[i])
  }

  /** Two different materials, one from each list, with one digest. */
  predicate Collide(h: Hashing, a: AuditEvent, b: AuditEvent) {
    Material(h, a) != Material(h, b) && ComputeHash(h, a) == ComputeHash(h, b)
  }

  predicate CollisionBetween(h: Hashing, a: seq<AuditEvent>, b: seq<AuditEvent>) {
    exists i, j :: 0 <= i < |a| && 0 <= j < |b| && Collide(h, a[i], b[j])
  }

  lemma CollisionLifts(h: Hashing, a: seq<AuditEvent>, b: seq<AuditEvent>, m: nat, n: nat)
    requires m <= |a| && n <= |b| && CollisionBetween(h, a[..m], b[..n])
    ensures CollisionBetween(h, a, b)
  {
    hide Collide;
    var i, j :| 0 <= i < m && 0 <= j < n && Collide(h, a[..m][i], b[..n][j]);
    assert Collide(h, a[i], b[j]);
  }

  /** Equal last hashes: the last events agree, and so do the hashes before them. */
  lemma LastPair(h: Hashing, scheme: IdScheme, a: seq<AuditEvent>, b: seq<AuditEvent>)
    requires Lawful(h) && AllNamed(scheme, a) && AllNamed(scheme, b)
    requires a != [] && b != [] && Intact(h, a) && Intact(h, b)
    requires a[|a| - 1].eventHash == b[|b| - 1].eventHash
    ensures var m, n := |a| - 1, |b| - 1;
            Collide(h, a[m], b[n]) ||
            (SameHashedFields(a[m], b[n]) && (m == 0 <==> n == 0) && (m > 0 ==> a[m - 1].eventHash == b[n - 1].eventHash))
  {
    var m, n := |a| - 1, |b| - 1;
    assert !Offends(h, a, m) && !Offends(h, b, n);
    if Material(h, a[m]) == Material(h, b[n]) {
      NamedDecode(h, scheme, a[m], b[n]);
      hide Material;
    }
  }

  /**
   Two accepted histories of one trail with the same last hash are the same history, field
   by hashed field — or they exhibit a SHA-256 collision between two events of
   theirs.
   */
  lemma {:induction false} TamperEvidence(h: Hashing, scheme: IdScheme, a: seq<AuditEvent>, b: seq<AuditEvent>)
    requires Lawful(h) && AllNamed(scheme, a) && AllNamed(scheme, b)
    requires a != [] && b != [] && Intact(h, a) && Intact(h, b)
    requires a[|a| - 1].eventHash == b[|b| - 1].eventHash
    ensures SameChain(a, b) || CollisionBetween(h, a, b)
    decreases |a|
  {
    hide Collide, SameHashedFields, Lawful, Intact, WellFormed, Named;
    var m, n := |a| - 1, |b| - 1;
    LastPair(h, scheme, a, b);
    if m > 0 && !Collide(h, a[m], b[n]) {
      PrefixIntact(h, a, m);
      PrefixIntact(h, b, n);
      TamperEvidence(h, scheme, a[..m], b[..n]);
      if CollisionBetween(h, a[..m], b[..n]) {
        CollisionLifts(h, a, b, m, n);
      }
    }
  }

  /** What verification cannot see: who acted, for whom, and in which request. */
  lemma UnhashedFieldsAreInvisible(h: Hashing, a: seq<AuditEvent>, b: seq<AuditEvent>)
    requires SameChain(a, b) && forall i :: 0 <= i < |a| ==> a[i].eventHash == b[i].eventHash
    ensures Intact(h, a) <==> Intact(h, b)
  {
    forall k | 0 <= k < |a| ensures Offends(h, a, k) <==> Offends(h, b, k) {
      assert SameHashedFields(a[k], b[k]);
    }
  }

  // ---- The table behind the database-backed trail ----

  /** Rows of one customer, in table order. */
  function RowsOf(table: seq<AuditEvent>, customer: string): seq<AuditEvent> {
    if table == [] then []
    else RowsOf(table[..|table| - 1], customer) +
         (if table[|table| - 1].customerId == Some(customer) then table[|table| - 1..] else [])
  }

  /** Stable insertion into an ascending list: `orderBy createdAt asc`. */
  function InsertByTime(sorted: seq<AuditEvent>, e: AuditEvent): seq<AuditEvent> {
    if sorted == [] || sorted[|sorted| - 1].createdAt <= e.createdAt then sorted + [e]
    else InsertByTime(sorted[..|sorted| - 1], e) + sorted[|sorted| - 1..]
  }

  function SortByTime(rows: seq<AuditEvent>): seq<AuditEvent> {
    if rows == [] then [] else InsertByTime(SortByTime(rows[..|rows| - 1]), rows[|rows| - 1])
  }

  /** Insertion happens behind everything not later. */
  lemma {:induction false} InsertSplits(sorted: seq<AuditEvent>, e: AuditEvent) returns (k: nat)
    requires ByTime(sorted)
    ensures k <= |sorted| && InsertByTime(sorted, e) == sorted[..k] + [e] + sorted[k..]
    ensures forall i :: 0 <= i < k ==> sorted[i].createdAt <= e.createdAt
    ensures forall i :: k <= i < |sorted| ==> sorted[i].createdAt > e.createdAt
  {
    if sorted == [] || sorted[|sorted| - 1].createdAt <= e.createdAt {
      k := |sorted|;
      assert sorted[..k] == sorted && sorted[k..] == [];
    } else {
      var front, last := sorted[..|sorted| - 1], sorted[|sorted| - 1..];
      k := InsertSplits(front, e);
      assert sorted == front + last;
      assert front[..k] == sorted[..k];
      assert (front + last)[k..] == front[k..] + last;
    }
  }

  /** The events of one instant, in order. */
  function At(events: seq<AuditEvent>, t: int): seq<AuditEvent> {
    if events == [] then []
    else At(events[..|events| - 1], t) + (if events[|events| - 1].createdAt == t then events[|events| - 1..] else [])
  }

  lemma AtSnoc(events: seq<AuditEvent>, e: AuditEvent, t: int)
    ensures At(events + [e], t) == At(events, t) + (if e.createdAt == t then [e] else [])
  {
    assert (events + [e])[..|events|] == events && (events + [e])[|events|..] == [e];
  }

  lemma {:induction false} AtConcat(a: seq<AuditEvent>, b: seq<AuditEvent>, t: int)
    ensures At(a + b, t) == At(a, t) + At(b, t)
  {
    if b == [] {
      assert a + b == a;
    } else {
      var front, last := b[..|b| - 1], b[|b| - 1];
      assert b == front + [last] && a + b == (a + front) + [last];
      AtConcat(a, front, t);
      hide At;
      AtSnoc(a + front, last, t);
      AtSnoc(front, last, t);
    }
  }

  lemma {:induction false} NoneAt(events: seq<AuditEvent>, t: int)
    requires forall i :: 0 <= i < |events| ==> events[i].createdAt > t
    ensures At(events, t) == []
  {
    if events != [] {
      NoneAt(events[..|events| - 1], t);
    }
  }

  lemma InsertKeepsInstants(sorted: seq<AuditEvent>, e: AuditEvent, t: int)
    requires ByTime(sorted)
    ensures At(InsertByTime(sorted, e), t) == At(sorted, t) + (if e.createdAt == t then [e] else [])
  {
    hide At, InsertByTime, ByTime;
    var k := InsertSplits(sorted, e);
    var before, after := sorted[..k], sorted[k..];
    assert sorted == before + after;
    AtConcat(before, after, t);
    AtConcat(before + [e], after, t);
    AtSnoc(before, e, t);
    if e.createdAt == t {
      NoneAt(after, t);
    }
  }

  lemma InsertKeepsOrder(sorted: seq<AuditEvent>, e: AuditEvent)
    requires ByTime(sorted)
    ensures ByTime(InsertByTime(sorted, e)) && multiset(InsertByTime(sorted, e)) == multiset(sorted) + multiset{e}
  {
    var k := InsertSplits(sorted, e);
    hide InsertByTime;
    assert sorted == sorted[..k] + sorted[k..];
  }

  predicate ByTime(events: seq<AuditEvent>) {
    forall i, j :: 0 <= i < j < |events| ==> events[i].createdAt <= events[j].createdAt
  }

  /** The sort the listing relies on: ascending, nothing lost, and events of one instant in their table order. */
  lemma {:induction false} SortByTimeSorts(rows: seq<AuditEvent>, t: int)
    ensures ByTime(SortByTime(rows)) && multiset(SortByTime(rows)) == multiset(rows)
    ensures At(SortByTime(rows), t) == At(rows, t)
  {
    if rows != [] {
      var front, last := rows[..|rows| - 1], rows[|rows| - 1];
      assert rows == front + [last];
      SortByTimeSorts(front, t);
      assert SortByTime(rows) == InsertByTime(SortByTime(front), last);
      hide SortByTime, InsertByTime, At, ByTime;
      InsertKeepsOrder(SortByTime(front), last);
      InsertKeepsInstants(SortByTime(front), last, t);
      AtSnoc(front, last, t);
    }
  }

  function FindByCustomer(table: seq<AuditEvent>, customer: string): seq<AuditEvent> {
    SortByTime(RowsOf(table, customer))
  }

  /** The hash a new event chains to; a missing or empty customer id starts no chain. */
  function LastEventHash(table: seq<AuditEvent>, customer: Option<string>): Option<string> {
    if customer == None || customer == Some("") then None
    else
      var events := FindByCustomer(table, customer.value);
      if events == [] then None else Some(events[|events| - 1].eventHash)
  }

  /** What a caller supplies, together with the id and the clock reading of the insert. */
  datatype Recording = Recording(eventId: string, customerId: Option<string>, eventType: string,
                                 actorType: string, actorId: string, correlationId: string, payload: string, now: int)

  function Create(h: Hashing, r: Recording, previous: Option<string>): AuditEvent {
    var e := AuditEvent(r.eventId, r.customerId, r.eventType, 1, r.actorType, r.actorId, r.correlationId, r.payload, previous, "", r.now);
    e.(eventHash := ComputeHash(h, e))
  }

  function Recorded(h: Hashing, table: seq<AuditEvent>, r: Recording): seq<AuditEvent> {
    table + [Create(h, r, LastEventHash(table, r.customerId))]
  }

  function RecordAll(h: Hashing, table: seq<AuditEvent>, rs: seq<Recording>): seq<AuditEvent> {
    if rs == [] then table else Recorded(h, RecordAll(h, table, rs[..|rs| - 1]), rs[|rs| - 1])
  }

  /** The clock moved between any two inserts. */
  predicate StrictlyLater(rs: seq<Recording>) {
    forall i, j :: 0 <= i < j < |rs| ==> rs[i].now < rs[j].now
  }

  predicate Increasing(events: seq<AuditEvent>) {
    forall i, j :: 0 <= i < j < |events| ==> events[i].createdAt < events[j].createdAt
  }

  lemma {:induction false} SortedAlready(events: seq<AuditEvent>)
    requires Increasing(events)
    ensures SortByTime(events) == events
  {
    if events != [] {
      SortedAlready(events[..|events| - 1]);
    }
  }

  lemma {:induction false} RowsIncrease(table: seq<AuditEvent>, customer: string)
    requires Increasing(table)
    ensures Increasing(RowsOf(table, customer))
    ensures forall e :: e in RowsOf(table, customer) ==> e in table && e.customerId == Some(customer)
  {
    if table != [] {
      RowsIncrease(table[..|table| - 1], customer);
    }
  }

  lemma RowsOfSnoc(table: seq<AuditEvent>, e: AuditEvent, customer: string)
    ensures RowsOf(table + [e], customer) == if e.customerId == Some(customer) then RowsOf(table, customer) + [e] else RowsOf(table, customer)
  {
    assert (table + [e])[..|table|] == table;
    assert (table + [e])[|table|..] == [e];
  }

  lemma ComputedHashVerifies(h: Hashing, r: Recording, previous: Option<string>)
    ensures VerifiesItself(h, Create(h, r, previous))
  {}

  lemma ExtendIntact(h: Hashing, events: seq<AuditEvent>, r: Recording)
    requires Intact(h, events)
    ensures Intact(h, events + [Create(h, r, if events == [] then None else Some(events[|events| - 1].eventHash))])
  {
    var e := Create(h, r, if events == [] then None else Some(events[|events| - 1].eventHash));
    ComputedHashVerifies(h, r, e.previousEventHash);
    forall k | 0 <= k < |events + [e]| ensures !Offends(h, events + [e], k) {
      if k < |events| {
        assert !Offends(h, events, k);
      }
    }
  }

  ghost predicate Chained(h: Hashing, table: seq<AuditEvent>) {
    Increasing(table) && forall c: string :: c != "" ==> Intact(h, RowsOf(table, c))
  }

  lemma RecordKeepsChains(h: Hashing, table: seq<AuditEvent>, r: Recording)
    requires Chained(h, table)
    requires forall i :: 0 <= i < |table| ==> table[i].createdAt < r.now
    ensures Chained(h, Recorded(h, table, r))
  {
    var e := Create(h, r, LastEventHash(table, r.customerId));
    forall c: string | c != "" ensures Intact(h, RowsOf(table + [e], c)) {
      RowsOfSnoc(table, e, c);
      RowsIncrease(table, c);
      SortedAlready(RowsOf(table, c));
      ExtendIntact(h, RowsOf(table, c), r);
    }
  }

  lemma {:induction false} RecordAllKeepsChains(h: Hashing, rs: seq<Recording>)
    requires StrictlyLater(rs)
    ensures Chained(h, RecordAll(h, [], rs))
    ensures var table := RecordAll(h, [], rs);
            |table| == |rs| && forall i :: 0 <= i < |rs| ==> table[i].createdAt == rs[i].now
  {
    if rs != [] {
      RecordAllKeepsChains(h, rs[..|rs| - 1]);
      RecordKeepsChains(h, RecordAll(h, [], rs[..|rs| - 1]), rs[|rs| - 1]);
    }
  }

  /**
   However the inserts of different customers interleave, every customer's
   time-ordered events pass verification, and so does every prefix of them —
   which is why removing the newest events goes unnoticed.
   */
  lemma ChainsAlwaysVerify(h: Hashing, rs: seq<Recording>, customer: string, n: nat)
    requires StrictlyLater(rs) && customer != ""
    ensures var events := FindByCustomer(RecordAll(h, [], rs), customer);
            Intact(h, events) && (n <= |events| ==> Intact(h, events[..n]))
  {
    var table := RecordAll(h, [], rs);
    RecordAllKeepsChains(h, rs);
    RowsIncrease(table, customer);
    SortedAlready(RowsOf(table, customer));
    if n <= |FindByCustomer(table, customer)| {
      PrefixIntact(h, FindByCustomer(table, customer), n);
    }
  }

  /** The append-only repository: an insert is the only way in. */
  class AuditEventRepository {
    const hashing: Hashing
    var table: seq<AuditEvent>

    constructor (hashing: Hashing)
      ensures this.hashing == hashing && table == []
    {
      this.hashing := hashing;
      table := [];
    }

    method RecordEvent(r: Recording) returns (e: AuditEvent)
      modifies this
      ensures table == Recorded(hashing, old(table), r) && table == old(table) + [e]
      ensures VerifiesItself(hashing, e)
      ensures var previous := LastEventHash(old(table), r.customerId);
              var digest := hashing.sha256(r.eventId + r.eventType + r.payload + (if previous.Some? then previous.value else "") + hashing.iso(r.now));
              e == AuditEvent(r.eventId, r.customerId, r.eventType, 1, r.actorType, r.actorId, r.correlationId, r.payload, previous, digest, r.now)
    {
      var previousEventHash := LastEventHash(table, r.customerId);
      e := Create(hashing, r, previousEventHash);
      ComputedHashVerifies(hashing, r, previousEventHash);
      table := table + [e];
    }
  }

  /** The in-memory trail: one list per customer key, ids from one counter. System events share the key '__system__'. */
  class InMemoryAuditTrail {
    const hashing: Hashing
    var eventsByCustomer: map<string, seq<AuditEvent>>
    var eventCounter: nat

    ghost predicate Valid()
      reads this
    {
      forall key :: key in eventsByCustomer ==> eventsByCustomer[key] != [] && Intact(hashing, eventsByCustomer[key])
    }

    function EventsFor(key: string): seq<AuditEvent>
      reads this
    {
      if key in eventsByCustomer then eventsByCustomer[key] else []
    }

    constructor (hashing: Hashing)
      ensures Valid() && this.hashing == hashing && eventsByCustomer == map[] && eventCounter == 0
    {
      this.hashing := hashing;
      eventsByCustomer, eventCounter := map[], 0;
    }

    /** `idOf` renders a counter value as an event id. */
    method RecordEvent(r: Recording, idOf: nat -> string) returns (e: AuditEvent)
      requires Valid()
      modifies this
      ensures Valid() && eventCounter == old(eventCounter) + 1
      ensures var key := if r.customerId.Some? then r.customerId.value else "__system__";
              EventsFor(key) == old(EventsFor(key)) + [e]
              && (forall k :: k != key ==> EventsFor(k) == old(EventsFor(k)))
      ensures var events := old(EventsFor(if r.customerId.Some? then r.customerId.value else "__system__"));
              var previous := if events == [] then None else Some(events[|events| - 1].eventHash);
              var digest := hashing.sha256(idOf(eventCounter) + r.eventType + r.payload + (if previous.Some? then previous.value else "") + hashing.iso(r.now));
              e == AuditEvent(idOf(eventCounter), r.customerId, r.eventType, 1, r.actorType, r.actorId, r.correlationId, r.payload, previous, digest, r.now)
    {
      var key := if r.customerId.Some? then r.customerId.value else "__system__";
      var priorEvents := EventsFor(key);
      var previousEventHash := if |priorEvents| > 0 then Some(priorEvents[|priorEvents| - 1].eventHash) else None;
      eventCounter := eventCounter + 1;
      e := Create(hashing, r.(eventId := idOf(eventCounter)), previousEventHash);
      ExtendIntact(hashing, priorEvents, r.(eventId := idOf(eventCounter)));
      eventsByCustomer := eventsByCustomer[key := priorEvents + [e]];
    }
  }
}
