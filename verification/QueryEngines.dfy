/** The in-memory search endpoint and the relational reference that must give its answers.
    Both share one abstract substring predicate and one abstract date reader. */
module QueryEngines {
  import opened Options
  import opened CanonicalText

  datatype Result<+T> = Ok(value: T) | Err(error: Error)

  datatype Error =
    | LimitInvalid | PageContract | OneFilterRequired | DateUnreadable | DateRange | AwardTypes
    | AgencyTier | RecipientFilter | Location | RecipientPayload
    | ReferenceText | ReferenceLimit | ReferenceDates | ReferenceTypes

  datatype Award = Award(id: string, recipient: string, agency: string, subagency: string, state: string,
                         kind: string, day: string, amount: string)

  datatype AgencyFilter = AgencyFilter(level: string, tier: string, name: string)
  datatype Place = Place(country: string, state: string)
  datatype Period = Period(start: string, end: string)

  /** The search request; `legacy` says that fields, sort, order and subawards hold their fixed values. */
  datatype Payload = Payload(limit: int, page: int, legacy: bool, periods: seq<Period>, types: seq<string>,
                             agencies: Option<seq<AgencyFilter>>, recipients: Option<seq<string>>,
                             places: Option<seq<Place>>)

  /** The semantic scope the reference reads. */
  datatype Scope = Scope(start: string, end: string, limit: int, types: Option<seq<string>>, agency: Option<string>,
                         subagency: Option<string>, state: Option<string>, recipient: Option<string>)

  const AWARD_TYPES := {"A", "B", "C", "D", "02", "03", "04", "05", "06", "09", "10", "11"}
  const CONTRACTS := ["A", "B", "C", "D"]

  type Reader = string -> Option<Date>
  type Match = (string, string) -> bool

  /** date.fromisoformat: reads every canonical text as its date, and possibly other texts too. */
  ghost predicate ReadsDates(parse: Reader) {
    && (forall d | ValidDate(d) :: parse(Iso(d)) == Some(d))
    && (forall s | parse(s).Some? :: ValidDate(parse(s).value))
  }

  /** What validate_dataset settles about records, as far as a search depends on it. */
  ghost predicate ValidRecords(records: seq<Award>) {
    && (forall r | r in records :: FromIso(r.day).Some? && ValidAmount(r.amount))
    && (forall i, j | 0 <= i < j < |records| :: records[i].id != records[j].id)
  }

  function Keep<T>(s: seq<T>, p: T -> bool): seq<T> {
    if s == [] then [] else if p(s[0]) then [s[0]] + Keep(s[1..], p) else Keep(s[1..], p)
  }

  lemma {:induction false} KeepMembers<T>(s: seq<T>, p: T -> bool)
    ensures forall x :: x in Keep(s, p) <==> x in s && p(x)
  {
    if s != [] {
      KeepMembers(s[1..], p);
      assert s == [s[0]] + s[1..];
    }
  }

  // ---- The endpoint: filter, then stable descending sort ----

  predicate Within(day: string, start: Date, end: Date, parse: Reader) {
    var d := parse(day);
    d.Some? && DateLE(start, d.value) && DateLE(d.value, end)
  }

  predicate Selected(r: Award, p: Payload, parse: Reader, matches: Match)
    requires |p.periods| == 1 && parse(p.periods[0].start).Some? && parse(p.periods[0].end).Some?
    requires (p.agencies.Some? ==> |p.agencies.value| == 1) && (p.recipients.Some? ==> |p.recipients.value| == 1)
    requires p.places.Some? ==> |p.places.value| == 1
  {
    && Within(r.day, parse(p.periods[0].start).value, parse(p.periods[0].end).value, parse)
    && r.kind in p.types
    && (p.agencies.None? || r.agency == p.agencies.value[0].name)
    && (p.places.None? || r.state == p.places.value[0].state)
    && (p.recipients.None? || matches(p.recipients.value[0], r.recipient))
  }

  function Insert(r: Award, s: seq<Award>): (t: seq<Award>)
    requires ValidAmount(r.amount) && forall x | x in s :: ValidAmount(x.amount)
    ensures multiset(t) == multiset(s) + multiset{r}
    ensures forall x :: x in t <==> x == r || x in s
  {
    if s == [] || DecimalOf(r.amount) >= DecimalOf(s[0].amount) then [r] + s else
      assert s == [s[0]] + s[1..];
      [s[0]] + Insert(r, s[1..])
  }

  /** sorted(key=amount, reverse=True): descending, equal amounts left in source order. */
  function StableDescending(s: seq<Award>): (t: seq<Award>)
    requires forall x | x in s :: ValidAmount(x.amount)
    ensures multiset(t) == multiset(s)
    ensures forall x :: x in t <==> x in s
  {
    if s == [] then [] else
      assert s == [s[0]] + s[1..];
      Insert(s[0], StableDescending(s[1..]))
  }

  function CheckPayload(p: Payload, parse: Reader): Option<Error> {
    if !(1 <= p.limit <= 100) then Some(LimitInvalid)
    else if p.page != 1 || !p.legacy then Some(PageContract)
    else if |p.periods| != 1 then Some(OneFilterRequired)
    else if parse(p.periods[0].start).None? || parse(p.periods[0].end).None? then Some(DateUnreadable)
    else if !InRange(parse(p.periods[0].start).value, parse(p.periods[0].end).value) then Some(DateRange)
    else if !(1 <= |p.types| <= 12) || exists t | t in p.types :: t !in AWARD_TYPES then Some(AwardTypes)
    else if p.agencies.Some? && |p.agencies.value| != 1 then Some(OneFilterRequired)
    else if p.agencies.Some? && (p.agencies.value[0].level != "awarding" || p.agencies.value[0].tier != "toptier"
                                 || p.agencies.value[0].name == "") then Some(AgencyTier)
    else if p.recipients.Some? && |p.recipients.value| != 1 then Some(OneFilterRequired)
    else if p.recipients.Some? && p.recipients.value[0] == "" then Some(RecipientFilter)
    else if p.places.Some? && |p.places.value| != 1 then Some(OneFilterRequired)
    else if p.places.Some? && p.places.value[0].country != "USA" then Some(Location)
    else None
  }

  predicate InRange(start: Date, end: Date) {
    ValidDate(start) && ValidDate(end) && 0 <= Ordinal(end) - Ordinal(start) <= 366
  }

  /** Exactly the payloads that no check refuses. */
  lemma PayloadExactly(p: Payload, parse: Reader)
    requires forall t | parse(t).Some? :: ValidDate(parse(t).value)
    ensures CheckPayload(p, parse).None? <==>
      && 1 <= p.limit <= 100 && p.page == 1 && p.legacy && |p.periods| == 1
      && parse(p.periods[0].start).Some? && parse(p.periods[0].end).Some?
      && 0 <= Ordinal(parse(p.periods[0].end).value) - Ordinal(parse(p.periods[0].start).value) <= 366
      && 1 <= |p.types| <= 12
      && (forall t | t in p.types :: t in {"A", "B", "C", "D", "02", "03", "04", "05", "06", "09", "10", "11"})
      && (p.agencies.Some? ==>
            && |p.agencies.value| == 1 && p.agencies.value[0].name != ""
            && p.agencies.value[0].level == "awarding" && p.agencies.value[0].tier == "toptier")
      && (p.recipients.Some? ==> |p.recipients.value| == 1 && p.recipients.value[0] != "")
      && (p.places.Some? ==> |p.places.value| == 1 && p.places.value[0].country == "USA")
  {
    hide Ordinal;
  }

  function SelectSearch(records: seq<Award>, p: Payload, parse: Reader, matches: Match): (r: Result<seq<Award>>)
    requires forall x | x in records :: ValidAmount(x.amount)
    ensures r.Ok? <==> CheckPayload(p, parse).None?
    ensures r.Err? ==> Some(r.error) == CheckPayload(p, parse)
    ensures r.Ok? ==> forall x :: x in r.value <==> x in records && Selected(x, p, parse, matches)
    ensures r.Ok? ==> IsStableSort(Table(r.value), Table(Picked(records, p, parse, matches)))
  {
    var bad := CheckPayload(p, parse);
    if bad.Some? then Err(bad.value) else
      var picked := Picked(records, p, parse, matches);
      SortsAlike(picked);
      StableRowsIsStable(Table(picked));
      Ok(StableDescending(picked))
  }

  /** The records a payload selects, in source order. */
  function Picked(records: seq<Award>, p: Payload, parse: Reader, matches: Match): (kept: seq<Award>)
    requires CheckPayload(p, parse).None?
    ensures forall x :: x in kept <==> x in records && Selected(x, p, parse, matches)
  {
    KeepMembers(records, r => Selected(r, p, parse, matches));
    Keep(records, r => Selected(r, p, parse, matches))
  }

  /** The first page of the endpoint. */
  datatype Page = Page(ids: seq<string>, cents: seq<int>, hasNext: bool)

  function Ids(s: seq<Award>): seq<string> { seq(|s|, i requires 0 <= i < |s| => s[i].id) }

  function Cents(s: seq<Award>): seq<int>
    requires forall x | x in s :: ValidAmount(x.amount)
  {
    seq(|s|, i requires 0 <= i < |s| => CentsOf(s[i].amount))
  }

  function Take<T>(s: seq<T>, n: int): seq<T>
    requires n >= 0
  {
    if |s| > n then s[..n] else s
  }

  function Respond(records: seq<Award>, p: Payload, parse: Reader, matches: Match): Result<Page>
    requires forall x | x in records :: ValidAmount(x.amount)
  {
    match SelectSearch(records, p, parse, matches)
    case Err(e) => Err(e)
    case Ok(selected) =>
      assert p.limit >= 1;
      KeepMembers(records, r => Selected(r, p, parse, matches));
      Ok(Page(Ids(Take(selected, p.limit)), Cents(Take(selected, p.limit)), |selected| > p.limit))
  }

  // ---- The reference: a table, clauses, ORDER BY cents DESC, id ASC ----

  datatype Row = Row(id: string, recipient: string, agency: string, subagency: string, state: string,
                     kind: string, day: string, cents: int)

  datatype Clause =
    | DateFrom(text: string) | DateTo(text: string)
    | AgencyIs(text: string) | SubagencyIs(text: string) | StateIs(text: string)
    | RecipientHas(text: string) | TypeIn(types: seq<string>)

  function RowOf(r: Award): Row
    requires ValidAmount(r.amount)
  {
    Row(r.id, r.recipient, r.agency, r.subagency, r.state, r.kind, r.day, CentsOf(r.amount))
  }

  function Table(records: seq<Award>): (t: seq<Row>)
    requires forall x | x in records :: ValidAmount(x.amount)
    ensures |t| == |records|
    ensures forall i | 0 <= i < |t| :: t[i] == RowOf(records[i])
  {
    if records == [] then [] else [RowOf(records[0])] + Table(records[1..])
  }

  predicate Holds(row: Row, c: Clause, matches: Match) {
    match c
    case DateFrom(t) => TextLE(t, row.day)
    case DateTo(t) => TextLE(row.day, t)
    case AgencyIs(t) => row.agency == t
    case SubagencyIs(t) => row.subagency == t
    case StateIs(t) => row.state == t
    case RecipientHas(t) => matches(t, row.recipient)
    case TypeIn(ts) => row.kind in ts
  }

  predicate HoldsAll(row: Row, cs: seq<Clause>, matches: Match) { forall c | c in cs :: Holds(row, c, matches) }

  predicate Before(a: Row, b: Row) { a.cents > b.cents || (a.cents == b.cents && TextLess(a.id, b.id)) }

  lemma NotBeforeTransitive(a: Row, b: Row, c: Row)
    requires !Before(b, a) && !Before(c, b)
    ensures !Before(c, a)
  {
    TextLETotal(a.id, b.id);
    TextLETotal(b.id, c.id);
    if Before(c, a) {
      TextLETransitive(a.id, b.id, c.id);
      TextLEAntisymmetric(a.id, c.id);
    }
  }

  /** The place of a row that no other row comes before. */
  function First(rows: seq<Row>): (k: nat)
    requires rows != []
    ensures k < |rows| && forall j | 0 <= j < |rows| :: !Before(rows[j], rows[k])
  {
    if |rows| == 1 then 0 else
      var k := First(rows[1..]) + 1;
      assert forall j | 1 <= j < |rows| :: rows[j] == rows[1..][j - 1];
      if Before(rows[0], rows[k]) then
        assert forall j | 1 <= j < |rows| :: !Before(rows[j], rows[0]) by {
          forall j | 1 <= j < |rows| ensures !Before(rows[j], rows[0]) {
            BeforeAsymmetric(rows[0], rows[k]);
            NotBeforeTransitive(rows[0], rows[k], rows[j]);
          }
        }
        0
      else k
  }

  lemma BeforeAsymmetric(a: Row, b: Row)
    requires Before(a, b)
    ensures !Before(b, a)
  {
    if a.cents == b.cents && TextLE(b.id, a.id) { TextLEAntisymmetric(a.id, b.id); }
  }

  function Without(rows: seq<Row>, k: nat): (rest: seq<Row>)
    requires k < |rows|
    ensures multiset(rows) == multiset{rows[k]} + multiset(rest)
  {
    assert rows == rows[..k] + [rows[k]] + rows[k + 1..];
    rows[..k] + rows[k + 1..]
  }

  lemma LeftAreAfter(rows: seq<Row>, k: nat, rest: seq<Row>)
    requires k < |rows| && multiset(rows) == multiset{rows[k]} + multiset(rest)
    requires forall j | 0 <= j < |rows| :: !Before(rows[j], rows[k])
    ensures forall x | x in rest :: !Before(x, rows[k])
  {
    hide Before;
    forall x | x in rest ensures !Before(x, rows[k]) {
      assert x in multiset(rest);
      assert x in multiset(rows);
    }
  }

  predicate InOrder(rows: seq<Row>) {
    rows == [] || ((forall x | x in rows[1..] :: !Before(x, rows[0])) && InOrder(rows[1..]))
  }

  /** ORDER BY cents DESC, id ASC: repeatedly the first of what is left. */
  function OrderBy(rows: seq<Row>): (r: seq<Row>)
    ensures multiset(r) == multiset(rows) && InOrder(r)
    decreases |rows|
  {
    if rows == [] then [] else
      var k := First(rows);
      var rest := OrderBy(Without(rows, k));
      LeftAreAfter(rows, k, rest);
      [rows[k]] + rest
  }

  // ---- The two orders on rows ----

  predicate Strict(rows: seq<Row>) {
    rows == [] || ((forall x | x in rows[1..] :: Before(rows[0], x)) && Strict(rows[1..]))
  }

  /** Rows of equal cents stand in increasing id order. */
  predicate TiesById(rows: seq<Row>) {
    rows == [] || (BelowTies(rows[0], rows[1..]) && TiesById(rows[1..]))
  }

  predicate BelowTies(r: Row, rows: seq<Row>) {
    forall x | x in rows && x.cents == r.cents :: TextLess(r.id, x.id)
  }

  predicate DistinctIds(rows: seq<Row>) {
    rows == [] || ((forall x | x in rows[1..] :: x.id != rows[0].id) && DistinctIds(rows[1..]))
  }

  lemma {:induction false} KeepDistinct(rows: seq<Row>, q: Row -> bool)
    requires DistinctIds(rows)
    ensures DistinctIds(Keep(rows, q))
  {
    if rows != [] {
      KeepDistinct(rows[1..], q);
      KeepMembers(rows[1..], q);
      assert ([rows[0]] + Keep(rows[1..], q))[1..] == Keep(rows[1..], q);
    }
  }

  lemma {:induction false} RecordsDistinct(records: seq<Award>)
    requires ValidRecords(records)
    ensures DistinctIds(Table(records))
  {
    if records != [] {
      assert Table(records)[1..] == Table(records[1..]);
      RecordsDistinct(records[1..]);
    }
  }

  lemma {:induction false} InsertDistinct(r: Row, t: seq<Row>)
    requires DistinctIds(t) && forall x | x in t :: x.id != r.id
    ensures DistinctIds(InsertRow(r, t))
  {
    if t == [] || r.cents >= t[0].cents {
      assert ([r] + t)[1..] == t;
    } else {
      InsertDistinct(r, t[1..]);
      assert t == [t[0]] + t[1..];
      assert ([t[0]] + InsertRow(r, t[1..]))[1..] == InsertRow(r, t[1..]);
    }
  }

  lemma {:induction false} SortDistinct(s: seq<Row>)
    requires DistinctIds(s)
    ensures DistinctIds(StableRows(s))
  {
    if s != [] {
      SortDistinct(s[1..]);
      InsertDistinct(s[0], StableRows(s[1..]));
    }
  }

  lemma {:induction false} DistinctOrderIsStrict(rows: seq<Row>)
    requires DistinctIds(rows) && InOrder(rows)
    ensures Strict(rows)
  {
    if rows != [] {
      DistinctOrderIsStrict(rows[1..]);
      forall x | x in rows[1..] ensures Before(rows[0], x) { TextLETotal(x.id, rows[0].id); }
    }
  }

  lemma InTail(x: Row, rows: seq<Row>)
    requires x in rows
    ensures x == rows[0] || x in rows[1..]
  {
    assert rows == [rows[0]] + rows[1..];
  }

  lemma FirstIsForced(a: seq<Row>, b: seq<Row>)
    requires multiset(a) == multiset(b) && InOrder(b) && a != [] && b != []
    requires forall x | x in a[1..] :: Before(a[0], x)
    ensures a[0] == b[0]
  {
    hide Before;
    assert a[0] in multiset(b) && b[0] in multiset(a) by {
      assert a[0] in multiset(a) && b[0] in multiset(b);
    }
    InTail(b[0], a);
    InTail(a[0], b);
  }

  /** A strict order is the only ordered arrangement of its rows. */
  lemma {:induction false} OneStrictOrder(a: seq<Row>, b: seq<Row>)
    requires multiset(a) == multiset(b) && Strict(a) && InOrder(b)
    ensures a == b
  {
    hide Before;
    if a == [] {
      assert |multiset(b)| == 0;
    } else {
      assert a == [a[0]] + a[1..];
      assert a[0] in multiset(b);
      FirstIsForced(a, b);
      assert b == [b[0]] + b[1..];
      assert multiset(a[1..]) == multiset(a) - multiset{a[0]} == multiset(b[1..]);
      OneStrictOrder(a[1..], b[1..]);
    }
  }

  /** Each of the first n rows comes before every later row. */
  predicate LeadStrict(rows: seq<Row>, n: nat) {
    n == 0 || rows == [] || ((forall x | x in rows[1..] :: Before(rows[0], x)) && LeadStrict(rows[1..], n - 1))
  }

  lemma TailsOfSame(a: seq<Row>, b: seq<Row>)
    requires multiset(a) == multiset(b) && a != [] && b != [] && a[0] == b[0]
    ensures multiset(a[1..]) == multiset(b[1..]) && forall x | x in a[1..] :: x in b[1..]
  {
    assert a == [a[0]] + a[1..] && b == [b[0]] + b[1..];
    assert multiset(a[1..]) == multiset(a) - multiset{a[0]} == multiset(b[1..]);
    forall x | x in a[1..] ensures x in b[1..] { assert x in multiset(a[1..]); }
  }

  lemma TakeFirst(rows: seq<Row>, n: nat)
    requires rows != [] && n > 0
    ensures Take(rows, n) == [rows[0]] + Take(rows[1..], n - 1)
  {
  }

  lemma SameLength(a: seq<Row>, b: seq<Row>)
    requires multiset(a) == multiset(b)
    ensures |a| == |b|
  {
    assert |multiset(a)| == |a| && |multiset(b)| == |b|;
  }

  /** An arrangement of rows with distinct ids shares its first n with the ordered one exactly when those n come before
      everything after them. */
  lemma {:induction false} LeadsAgree(a: seq<Row>, b: seq<Row>, n: nat)
    requires multiset(a) == multiset(b) && InOrder(b) && DistinctIds(a)
    ensures Take(a, n) == Take(b, n) <==> LeadStrict(a, n)
  {
    hide Before, Take;
    SameLength(a, b);
    if n == 0 || a == [] {
      TakeNone(a, n);
      TakeNone(b, n);
    } else {
      HeadsAgree(a, b);
      TakeFirst(a, n);
      TakeFirst(b, n);
      SameSplit(a[0], Take(a[1..], n - 1), b[0], Take(b[1..], n - 1));
      if a[0] == b[0] {
        TailsOfSame(a, b);
        LeadsAgree(a[1..], b[1..], n - 1);
      }
    }
  }

  /** The heads are one exactly when the first comes before everything after it. */
  lemma HeadsAgree(a: seq<Row>, b: seq<Row>)
    requires multiset(a) == multiset(b) && InOrder(b) && DistinctIds(a) && a != [] && b != []
    ensures a[0] == b[0] <==> forall x | x in a[1..] :: Before(a[0], x)
  {
    if forall x | x in a[1..] :: Before(a[0], x) { FirstIsForced(a, b); }
    if a[0] == b[0] {
      TailsOfSame(a, b);
      forall x | x in a[1..] ensures Before(a[0], x) { TextLETotal(x.id, a[0].id); }
    }
  }

  lemma SameSplit<T>(x: T, s: seq<T>, y: T, t: seq<T>)
    ensures [x] + s == [y] + t <==> x == y && s == t
  {
    assert ([x] + s)[0] == x && ([y] + t)[0] == y && ([x] + s)[1..] == s && ([y] + t)[1..] == t;
  }

  lemma TakeNone(rows: seq<Row>, n: nat)
    requires n == 0 || rows == []
    ensures Take(rows, n) == []
  {
  }

  function InsertRow(r: Row, s: seq<Row>): (t: seq<Row>)
    ensures multiset(t) == multiset(s) + multiset{r}
    ensures forall x :: x in t <==> x == r || x in s
  {
    if s == [] || r.cents >= s[0].cents then [r] + s else
      assert s == [s[0]] + s[1..];
      [s[0]] + InsertRow(r, s[1..])
  }

  function StableRows(s: seq<Row>): (t: seq<Row>)
    ensures multiset(t) == multiset(s)
    ensures forall x :: x in t <==> x in s
  {
    if s == [] then [] else
      assert s == [s[0]] + s[1..];
      InsertRow(s[0], StableRows(s[1..]))
  }

  predicate Descending(rows: seq<Row>) {
    rows == [] || ((forall x | x in rows[1..] :: x.cents <= rows[0].cents) && Descending(rows[1..]))
  }

  function OfCents(rows: seq<Row>, c: int): seq<Row> {
    if rows == [] then []
    else if rows[0].cents == c then [rows[0]] + OfCents(rows[1..], c)
    else OfCents(rows[1..], c)
  }

  /** Descending, and rows of equal cents in the order they had. */
  ghost predicate IsStableSort(sorted: seq<Row>, rows: seq<Row>) {
    Descending(sorted) && forall c :: OfCents(sorted, c) == OfCents(rows, c)
  }

  lemma {:induction false} InsertIsStable(r: Row, t: seq<Row>)
    requires Descending(t)
    ensures Descending(InsertRow(r, t))
    ensures forall c :: OfCents(InsertRow(r, t), c) == OfCents([r] + t, c)
  {
    assert ([r] + t)[1..] == t;
    if t != [] && r.cents < t[0].cents {
      var rest := InsertRow(r, t[1..]);
      InsertIsStable(r, t[1..]);
      assert ([t[0]] + rest)[1..] == rest && ([r] + t[1..])[1..] == t[1..] && t == [t[0]] + t[1..];
    }
  }

  lemma {:induction false} StableRowsIsStable(s: seq<Row>)
    ensures IsStableSort(StableRows(s), s)
  {
    if s != [] {
      StableRowsIsStable(s[1..]);
      InsertIsStable(s[0], StableRows(s[1..]));
      var t := StableRows(s[1..]);
      assert ([s[0]] + t)[1..] == t;
    }
  }

  lemma {:induction false} OfCentsMembers(rows: seq<Row>, c: int)
    ensures forall x :: x in OfCents(rows, c) <==> x in rows && x.cents == c
  {
    if rows != [] {
      OfCentsMembers(rows[1..], c);
      assert rows == [rows[0]] + rows[1..];
    }
  }

  lemma OwnCents(rows: seq<Row>)
    ensures rows != [] ==> exists c :: OfCents(rows, c) != []
  {
    if rows != [] { assert OfCents(rows, rows[0].cents) != []; }
  }

  /** The stable descending sort of a list is unique. */
  lemma {:induction false} OneStableSort(a: seq<Row>, b: seq<Row>)
    requires Descending(a) && Descending(b) && forall c :: OfCents(a, c) == OfCents(b, c)
    ensures a == b
  {
    if a == [] {
      OwnCents(b);
    } else {
      var c := a[0].cents;
      assert OfCents(a, c) == OfCents(b, c);
      OfCentsMembers(b, c);
      assert a[0] in b;
      OfCentsMembers(a, b[0].cents);
      assert b[0] in OfCents(b, b[0].cents);
      assert b[0] in a && b[0].cents == c;
      forall d ensures OfCents(a[1..], d) == OfCents(b[1..], d) {
        assert OfCents(a, d) == OfCents(b, d);
        assert b[0].cents == c == a[0].cents;
        if d == c { assert OfCents(a, d)[1..] == OfCents(a[1..], d) && OfCents(b, d)[1..] == OfCents(b[1..], d); }
      }
      assert OfCents(a, c)[0] == a[0] && OfCents(b, c)[0] == b[0];
      OneStableSort(a[1..], b[1..]);
      assert a == [a[0]] + a[1..] && b == [b[0]] + b[1..];
    }
  }

  lemma {:induction false} InsertKeepsStrict(r: Row, t: seq<Row>)
    ensures Strict(InsertRow(r, t)) <==> Strict(t) && BelowTies(r, t)
  {
    hide TextLess;
    if t == [] {
    } else if r.cents >= t[0].cents {
      assert ([r] + t)[1..] == t;
      assert t == [t[0]] + t[1..];
    } else {
      var rest := InsertRow(r, t[1..]);
      assert ([t[0]] + rest)[1..] == rest;
      assert t == [t[0]] + t[1..];
      InsertKeepsStrict(r, t[1..]);
    }
  }

  /** The stable descending sort gives the strict (cents, id) order if and only if its input has ties by id. */
  lemma {:induction false} StableIsStrictIffTies(s: seq<Row>)
    ensures Strict(StableRows(s)) <==> TiesById(s)
  {
    hide Before, TextLess;
    if s != [] {
      StableIsStrictIffTies(s[1..]);
      InsertKeepsStrict(s[0], StableRows(s[1..]));
    }
  }

  lemma TableCons(r: Award, s: seq<Award>)
    requires ValidAmount(r.amount) && forall x | x in s :: ValidAmount(x.amount)
    ensures Table([r] + s) == [RowOf(r)] + Table(s)
  {
    hide ValidAmount, CentsOf;
    assert ([r] + s)[1..] == s;
  }

  lemma {:induction false} InsertsAlike(r: Award, s: seq<Award>)
    requires ValidAmount(r.amount) && forall x | x in s :: ValidAmount(x.amount)
    ensures Table(Insert(r, s)) == InsertRow(RowOf(r), Table(s))
  {
    hide ValidAmount, DecimalOf, CentsOf, Table;
    TableCons(r, s);
    if s != [] {
      assert s == [s[0]] + s[1..];
      TableCons(s[0], s[1..]);
      AmountOrderIsCentOrder(r.amount, s[0].amount);
      if DecimalOf(r.amount) < DecimalOf(s[0].amount) {
        InsertsAlike(r, s[1..]);
        TableCons(s[0], Insert(r, s[1..]));
        assert Table(s)[1..] == Table(s[1..]);
      }
    }
  }

  /** Sorting by decimal amounts is sorting by cents. */
  lemma {:induction false} SortsAlike(s: seq<Award>)
    requires forall x | x in s :: ValidAmount(x.amount)
    ensures Table(StableDescending(s)) == StableRows(Table(s))
  {
    hide ValidAmount, DecimalOf, CentsOf;
    if s != [] {
      SortsAlike(s[1..]);
      InsertsAlike(s[0], StableDescending(s[1..]));
      assert Table(s)[1..] == Table(s[1..]);
    }
  }

  // ---- The reference's answer ----

  /** The characters str.strip removes. */
  predicate IsSpace(c: char) {
    var n := c as int;
    || 9 <= n <= 13 || 28 <= n <= 32 || n == 0x85 || n == 0xA0 || n == 0x1680 || 0x2000 <= n <= 0x200A
    || n == 0x2028 || n == 0x2029 || n == 0x202F || n == 0x205F || n == 0x3000
  }

  /** The 29 characters of str.strip, one by one. */
  lemma SpacesExactly(c: char)
    ensures IsSpace(c) <==> c as int in {
      9, 10, 11, 12, 13, 28, 29, 30, 31, 32, 133, 160, 5760, 8192, 8193, 8194, 8195, 8196, 8197, 8198, 8199, 8200, 8201,
      8202, 8232, 8233, 8239, 8287, 12288}
  {
  }

  predicate Blank(s: string) { forall c | c in s :: IsSpace(c) }

  predicate BlankText(t: Option<string>) { t.Some? && Blank(t.value) }

  predicate CanonicalDate(s: string, parse: Reader) {
    parse(s).Some? && ValidDate(parse(s).value) && Iso(parse(s).value) == s
  }

  function TypesOf(scope: Scope): seq<string> { if scope.types.Some? then scope.types.value else CONTRACTS }

  function CheckScope(scope: Scope, parse: Reader): Option<Error> {
    if BlankText(scope.agency) || BlankText(scope.subagency) || BlankText(scope.state) || BlankText(scope.recipient)
    then Some(ReferenceText)
    else if !(1 <= scope.limit <= 100) then Some(ReferenceLimit)
    else if !CanonicalDate(scope.start, parse) || !CanonicalDate(scope.end, parse)
            || !InRange(parse(scope.start).value, parse(scope.end).value) then Some(ReferenceDates)
    else if !(1 <= |TypesOf(scope)| <= 12) || exists t | t in TypesOf(scope) :: t !in AWARD_TYPES
    then Some(ReferenceTypes)
    else None
  }

  predicate Matches(wanted: Option<string>, actual: string) { wanted.None? || wanted.value == actual }

  /** What a scope asks of a row. */
  predicate Wanted(row: Row, scope: Scope, matches: Match) {
    && TextLE(scope.start, row.day) && TextLE(row.day, scope.end)
    && Matches(scope.agency, row.agency) && Matches(scope.subagency, row.subagency) && Matches(scope.state, row.state)
    && (scope.recipient.None? || matches(scope.recipient.value, row.recipient))
    && row.kind in TypesOf(scope)
  }

  function Found(records: seq<Award>, scope: Scope, matches: Match): seq<Row>
    requires forall x | x in records :: ValidAmount(x.amount)
  {
    OrderBy(Keep(Table(records), row => Wanted(row, scope, matches)))
  }

  /** The first `limit` rows, and whether there are more. */
  function FirstRows(rows: seq<Row>, limit: int): Page
    requires limit >= 0
  {
    var page := Take(rows, limit);
    Page(seq(|page|, i requires 0 <= i < |page| => page[i].id),
         seq(|page|, i requires 0 <= i < |page| => page[i].cents),
         |rows| > limit)
  }

  lemma {:induction false} KeepExtensional<T>(s: seq<T>, p: T -> bool, q: T -> bool)
    requires forall x | x in s :: p(x) == q(x)
    ensures Keep(s, p) == Keep(s, q)
  {
    if s != [] { KeepExtensional(s[1..], p, q); }
  }

  lemma ClausesMeanWanted(row: Row, scope: Scope, clauses: seq<Clause>, matches: Match)
    requires forall c :: c in clauses <==>
      || c == DateFrom(scope.start) || c == DateTo(scope.end) || c == TypeIn(TypesOf(scope))
      || (scope.agency.Some? && c == AgencyIs(scope.agency.value))
      || (scope.subagency.Some? && c == SubagencyIs(scope.subagency.value))
      || (scope.state.Some? && c == StateIs(scope.state.value))
      || (scope.recipient.Some? && c == RecipientHas(scope.recipient.value))
    ensures HoldsAll(row, clauses, matches) <==> Wanted(row, scope, matches)
  {
    hide TextLE;
    if HoldsAll(row, clauses, matches) {
      assert Holds(row, DateFrom(scope.start), matches) && Holds(row, DateTo(scope.end), matches);
      assert Holds(row, TypeIn(TypesOf(scope)), matches);
      assert scope.agency.Some? ==> Holds(row, AgencyIs(scope.agency.value), matches);
      assert scope.subagency.Some? ==> Holds(row, SubagencyIs(scope.subagency.value), matches);
      assert scope.state.Some? ==> Holds(row, StateIs(scope.state.value), matches);
      assert scope.recipient.Some? ==> Holds(row, RecipientHas(scope.recipient.value), matches);
    }
  }

  /** The reference's answer: the page, how many rows matched in all, and the sum of the page in cents. */
  datatype ReferenceAnswer = ReferenceAnswer(page: Page, matchingCount: nat, pageCents: int)

  function Total(cents: seq<int>): int { if cents == [] then 0 else Total(cents[..|cents| - 1]) + cents[|cents| - 1] }

  /** The clause list built key by key selects exactly the rows the scope wants. */
  method Answer(records: seq<Award>, scope: Scope, parse: Reader, matches: Match) returns (r: Result<ReferenceAnswer>)
    requires forall x | x in records :: ValidAmount(x.amount)
    ensures r.Ok? <==> CheckScope(scope, parse).None?
    ensures r.Err? ==> Some(r.error) == CheckScope(scope, parse)
    ensures r.Ok? ==>
      var found := Found(records, scope, matches);
      r.value.page == FirstRows(found, scope.limit) && r.value.matchingCount == |found|
      && r.value.pageCents == Total(r.value.page.cents)
  {
    hide ValidAmount, TextLE, Wanted, HoldsAll, OrderBy, TypesOf, Total;
    var bad := CheckScope(scope, parse);
    if bad.Some? { return Err(bad.value); }
    var clauses := [DateFrom(scope.start), DateTo(scope.end)];
    if scope.agency.Some? { clauses := clauses + [AgencyIs(scope.agency.value)]; }
    if scope.subagency.Some? { clauses := clauses + [SubagencyIs(scope.subagency.value)]; }
    if scope.state.Some? { clauses := clauses + [StateIs(scope.state.value)]; }
    if scope.recipient.Some? { clauses := clauses + [RecipientHas(scope.recipient.value)]; }
    clauses := clauses + [TypeIn(TypesOf(scope))];
    var table := Table(records);
    forall row ensures HoldsAll(row, clauses, matches) == Wanted(row, scope, matches) {
      ClausesMeanWanted(row, scope, clauses, matches);
    }
    KeepExtensional(table, row => HoldsAll(row, clauses, matches), row => Wanted(row, scope, matches));
    var result := OrderBy(Keep(table, row => HoldsAll(row, clauses, matches)));
    var page := FirstRows(result, scope.limit);
    r := Ok(ReferenceAnswer(page, |result|, Total(page.cents)));
  }

  // ---- The engines agree ----

  /** The request that carries a scope over the wire; a subagency has no place in it. */
  function WireOf(scope: Scope): Payload {
    Payload(scope.limit, 1, true, [Period(scope.start, scope.end)], TypesOf(scope),
            if scope.agency.Some? then Some([AgencyFilter("awarding", "toptier", scope.agency.value)]) else None,
            if scope.recipient.Some? then Some([scope.recipient.value]) else None,
            if scope.state.Some? then Some([Place("USA", scope.state.value)]) else None)
  }

  /** Everything the reference accepts the endpoint accepts; the endpoint also takes other spellings of a date,
      blank but non-empty names, and any text at all for a state. */
  lemma AcceptedByBoth(scope: Scope, parse: Reader)
    requires ReadsDates(parse)
    ensures CheckScope(scope, parse).None? ==> CheckPayload(WireOf(scope), parse).None?
    ensures CheckScope(scope, parse).None? <==>
      && CheckPayload(WireOf(scope), parse).None?
      && CanonicalDate(scope.start, parse) && CanonicalDate(scope.end, parse)
      && !BlankText(scope.agency) && !BlankText(scope.subagency) && !BlankText(scope.state)
      && !BlankText(scope.recipient)
  {
  }

  lemma CanonicalReadsAlike(s: string, parse: Reader)
    requires ReadsDates(parse)
    ensures FromIso(s).Some? <==> CanonicalDate(s, parse)
    ensures FromIso(s).Some? ==> FromIso(s) == parse(s)
  {
    if FromIso(s).Some? {
      CanonicalTextIsIso(s);
      assert parse(Iso(FromIso(s).value)) == Some(FromIso(s).value);
    } else if CanonicalDate(s, parse) {
      IsoRoundTrip(parse(s).value);
    }
  }

  /** What a scope asks of an award, field by field and in the order of the calendar. */
  predicate Meets(r: Award, scope: Scope, matches: Match) {
    && FromIso(r.day).Some? && FromIso(scope.start).Some? && FromIso(scope.end).Some?
    && DateLE(FromIso(scope.start).value, FromIso(r.day).value)
    && DateLE(FromIso(r.day).value, FromIso(scope.end).value)
    && (scope.agency.Some? ==> r.agency == scope.agency.value)
    && (scope.subagency.Some? ==> r.subagency == scope.subagency.value)
    && (scope.state.Some? ==> r.state == scope.state.value)
    && (scope.recipient.Some? ==> matches(scope.recipient.value, r.recipient))
    && r.kind in (if scope.types.Some? then scope.types.value else ["A", "B", "C", "D"])
  }

  lemma WantedIsMet(r: Award, scope: Scope, parse: Reader, matches: Match)
    requires ReadsDates(parse) && CheckScope(scope, parse).None?
    requires FromIso(r.day).Some? && ValidAmount(r.amount)
    ensures Wanted(RowOf(r), scope, matches) <==> Meets(r, scope, matches)
  {
    CanonicalReadsAlike(scope.start, parse);
    CanonicalReadsAlike(scope.end, parse);
    TextOrderIsCalendarOrder(scope.start, r.day);
    TextOrderIsCalendarOrder(r.day, scope.end);
    hide TextLE, FromIso, DateLE;
  }

  /** The reference's complete result, said of the records: the ids of exactly the awards that meet the scope, each once
      and with the cents of its amount. */
  lemma FoundExactly(records: seq<Award>, scope: Scope, parse: Reader, matches: Match)
    requires ValidRecords(records) && ReadsDates(parse) && CheckScope(scope, parse).None?
    ensures var found := Found(records, scope, matches);
      && (forall r | r in records :: Meets(r, scope, matches) <==> exists row :: row in found && row.id == r.id)
      && (forall row | row in found :: exists r :: r in records && r.id == row.id && row.cents == CentsOf(r.amount))
      && |found| == |Keep(records, r => Meets(r, scope, matches))|
  {
    hide Wanted, Meets, ValidAmount, CheckScope, ReadsDates, FromIso, Before, CentsOf, Found, Table;
    var meets, found := r => Meets(r, scope, matches), Found(records, scope, matches);
    forall r | r in records ensures meets(r) == Wanted(RowOf(r), scope, matches) {
      WantedIsMet(r, scope, parse, matches);
    }
    TableKeeps(records, meets, row => Wanted(row, scope, matches));
    KeepMembers(records, meets);
    FoundMembers(records, scope, matches);
    TableMembers(Keep(records, meets));
    forall r | r in records ensures meets(r) <==> exists row :: row in found && row.id == r.id {
      if row :| row in found && row.id == r.id {
        var q :| q in Keep(records, meets) && RowOf(q) == row;
        SameId(records, q, r);
      }
      if meets(r) { assert RowOf(r) in found; }
    }
  }

  /** Ordering neither adds nor loses a row. */
  lemma OrderMembers(rows: seq<Row>)
    ensures |OrderBy(rows)| == |rows| && forall x :: x in OrderBy(rows) <==> x in rows
  {
    SameLength(OrderBy(rows), rows);
    SameMembers(OrderBy(rows), rows);
  }

  lemma SameMembers(a: seq<Row>, b: seq<Row>)
    requires multiset(a) == multiset(b)
    ensures forall x :: x in a <==> x in b
  {
    forall x ensures x in a <==> x in b {
      assert x in a <==> x in multiset(a);
      assert x in b <==> x in multiset(b);
    }
  }

  lemma FoundMembers(records: seq<Award>, scope: Scope, matches: Match)
    requires forall r | r in records :: ValidAmount(r.amount)
    ensures var rows := Keep(Table(records), row => Wanted(row, scope, matches));
      && |Found(records, scope, matches)| == |rows|
      && forall x :: x in Found(records, scope, matches) <==> x in rows
  {
    OrderMembers(Keep(Table(records), row => Wanted(row, scope, matches)));
  }

  /** The rows of a table are the rows of its records. */
  lemma TableMembers(kept: seq<Award>)
    requires forall r | r in kept :: ValidAmount(r.amount)
    ensures forall r | r in kept :: RowOf(r) in Table(kept)
    ensures forall row | row in Table(kept) :: exists r :: r in kept && RowOf(r) == row
  {
    hide ValidAmount, CentsOf;
    var rows := Table(kept);
    forall r | r in kept ensures RowOf(r) in rows {
      var i :| 0 <= i < |kept| && kept[i] == r;
      assert rows[i] == RowOf(r);
    }
    forall row | row in rows ensures exists r :: r in kept && RowOf(r) == row {
      var i :| 0 <= i < |rows| && rows[i] == row;
      assert kept[i] in kept && RowOf(kept[i]) == row;
    }
  }

  lemma SameId(records: seq<Award>, q: Award, r: Award)
    requires (forall i, j | 0 <= i < j < |records| :: records[i].id != records[j].id)
    requires q in records && r in records && q.id == r.id
    ensures q == r
  {
    var i, j :| 0 <= i < |records| && 0 <= j < |records| && records[i] == q && records[j] == r;
  }

  /** The award is of the subagency asked for; the wire cannot ask for one. */
  predicate OfSubagency(r: Award, scope: Scope) { scope.subagency.None? || r.subagency == scope.subagency.value }

  /** One award of the right subagency passes the endpoint's filter exactly when its row satisfies the clauses. */
  lemma FiltersAgree(r: Award, scope: Scope, parse: Reader, matches: Match)
    requires ReadsDates(parse) && CheckScope(scope, parse).None?
    requires FromIso(r.day).Some? && ValidAmount(r.amount)
    ensures CheckPayload(WireOf(scope), parse).None?
    ensures OfSubagency(r, scope) && Selected(r, WireOf(scope), parse, matches) <==> Wanted(RowOf(r), scope, matches)
  {
    AcceptedByBoth(scope, parse);
    CanonicalReadsAlike(r.day, parse);
    CanonicalReadsAlike(scope.start, parse);
    CanonicalReadsAlike(scope.end, parse);
    TextOrderIsCalendarOrder(scope.start, r.day);
    TextOrderIsCalendarOrder(r.day, scope.end);
  }

  /** What the endpoint is given to answer a scope: the records of the subagency asked for. */
  function Offered(records: seq<Award>, scope: Scope): (kept: seq<Award>)
    ensures forall r :: r in kept <==> r in records && OfSubagency(r, scope)
  {
    KeepMembers(records, r => OfSubagency(r, scope));
    if scope.subagency.None? then records else Keep(records, r => OfSubagency(r, scope))
  }

  lemma {:induction false} KeepIdsDistinct(records: seq<Award>, p: Award -> bool)
    requires forall i, j | 0 <= i < j < |records| :: records[i].id != records[j].id
    ensures forall i, j | 0 <= i < j < |Keep(records, p)| :: Keep(records, p)[i].id != Keep(records, p)[j].id
  {
    if records != [] {
      KeepIdsDistinct(records[1..], p);
      KeepMembers(records[1..], p);
      var rest := Keep(records[1..], p);
      forall x | x in rest ensures x.id != records[0].id {
        var j :| 0 <= j < |records[1..]| && records[1..][j] == x;
        assert records[j + 1] == x;
      }
      assert forall j | 0 <= j < |rest| :: rest[j] in rest;
    }
  }

  lemma OfferedIsValid(records: seq<Award>, scope: Scope)
    requires ValidRecords(records)
    ensures ValidRecords(Offered(records, scope))
  {
    KeepIdsDistinct(records, r => OfSubagency(r, scope));
  }

  /** The awards a scope selects, in source order. */
  function Matching(records: seq<Award>, scope: Scope, parse: Reader, matches: Match): (kept: seq<Award>)
    requires CheckPayload(WireOf(scope), parse).None?
    ensures forall r | r in kept :: r in records
  {
    Picked(Offered(records, scope), WireOf(scope), parse, matches)
  }

  lemma {:induction false} KeepTwice<T>(s: seq<T>, p: T -> bool, q: T -> bool, both: T -> bool)
    requires forall x | x in s :: both(x) == (p(x) && q(x))
    ensures Keep(Keep(s, p), q) == Keep(s, both)
  {
    if s != [] {
      KeepTwice(s[1..], p, q, both);
      if p(s[0]) { assert ([s[0]] + Keep(s[1..], p))[1..] == Keep(s[1..], p); }
    }
  }

  lemma {:induction false} TableKeeps(records: seq<Award>, p: Award -> bool, q: Row -> bool)
    requires forall r | r in records :: ValidAmount(r.amount) && p(r) == q(RowOf(r))
    ensures forall r | r in Keep(records, p) :: r in records
    ensures Table(Keep(records, p)) == Keep(Table(records), q)
  {
    hide ValidAmount;
    KeepMembers(records, p);
    if records != [] {
      TableKeeps(records[1..], p, q);
      var later := Keep(records[1..], p);
      assert Table(records)[1..] == Table(records[1..]);
      if p(records[0]) {
        assert ([records[0]] + later)[1..] == later;
      }
    }
  }

  /** For every accepted scope the two complete results are the same list of rows if and only if the selected
      awards with equal amounts stand in increasing id order. */
  lemma ResultsAgreeIffTiesById(records: seq<Award>, scope: Scope, parse: Reader, matches: Match)
    requires ValidRecords(records) && ReadsDates(parse)
    requires CheckScope(scope, parse).None?
    ensures SelectSearch(Offered(records, scope), WireOf(scope), parse, matches).Ok?
    ensures var selected := SelectSearch(Offered(records, scope), WireOf(scope), parse, matches).value;
      var matching := Matching(records, scope, parse, matches);
      && (forall x | x in selected :: x in records)
      && (Table(selected) == Found(records, scope, matches) <==> TiesById(Table(matching)))
  {
    AcceptedByBoth(scope, parse);
    ResultsAgree(records, scope, parse, matches);
  }

  lemma ResultsAgree(records: seq<Award>, scope: Scope, parse: Reader, matches: Match)
    requires ReadsDates(parse) && CheckScope(scope, parse).None?
    requires ValidRecords(records)
    requires CheckPayload(WireOf(scope), parse).None?
    ensures var matching := Matching(records, scope, parse, matches);
      Table(StableDescending(matching)) == Found(records, scope, matches) <==> TiesById(Table(matching))
  {
    FoundIsOrdered(records, scope, parse, matches);
    RowsAgree(Matching(records, scope, parse, matches));
  }

  /** The reference finds exactly the rows of the selected awards, and no two have one id. */
  lemma FoundIsOrdered(records: seq<Award>, scope: Scope, parse: Reader, matches: Match)
    requires ReadsDates(parse) && CheckScope(scope, parse).None?
    requires ValidRecords(records)
    requires CheckPayload(WireOf(scope), parse).None?
    ensures var rows := Table(Matching(records, scope, parse, matches));
      Found(records, scope, matches) == OrderBy(rows) && DistinctIds(rows)
  {
    hide Wanted, ValidAmount, CheckScope, ReadsDates, FromIso, Before, TextLess;
    MatchingTable(records, scope, parse, matches);
    RecordsDistinct(records);
    KeepDistinct(Table(records), row => Wanted(row, scope, matches));
  }

  /** The rows of the selected awards are the rows the clauses select. */
  lemma MatchingTable(records: seq<Award>, scope: Scope, parse: Reader, matches: Match)
    requires ReadsDates(parse) && CheckScope(scope, parse).None?
    requires ValidRecords(records)
    requires CheckPayload(WireOf(scope), parse).None?
    ensures Table(Matching(records, scope, parse, matches)) == Keep(Table(records), row => Wanted(row, scope, matches))
  {
    hide Wanted, ValidAmount, CheckScope, ReadsDates, FromIso;
    MatchingIsOneFilter(records, scope, parse, matches);
    var keep := r => OfSubagency(r, scope) && Selected(r, WireOf(scope), parse, matches);
    forall r | r in records ensures keep(r) == Wanted(RowOf(r), scope, matches) {
      FiltersAgree(r, scope, parse, matches);
    }
    TableKeeps(records, keep, row => Wanted(row, scope, matches));
  }

  lemma MatchingIsOneFilter(records: seq<Award>, scope: Scope, parse: Reader, matches: Match)
    requires CheckPayload(WireOf(scope), parse).None?
    ensures Matching(records, scope, parse, matches)
         == Keep(records, r => OfSubagency(r, scope) && Selected(r, WireOf(scope), parse, matches))
  {
    var selected := r => Selected(r, WireOf(scope), parse, matches);
    var both := r => OfSubagency(r, scope) && Selected(r, WireOf(scope), parse, matches);
    hide Selected, CheckPayload;
    if scope.subagency.None? {
      KeepExtensional(records, selected, both);
    } else {
      KeepTwice(records, r => OfSubagency(r, scope), selected, both);
    }
  }

  lemma RowsAgree(matching: seq<Award>)
    requires (forall r | r in matching :: ValidAmount(r.amount)) && DistinctIds(Table(matching))
    ensures Table(StableDescending(matching)) == OrderBy(Table(matching)) <==> TiesById(Table(matching))
  {
    hide ValidAmount, Before, TextLess, DistinctIds, TiesById, Strict, InOrder;
    var rows := Table(matching);
    SortsAlike(matching);
    StableIsStrictIffTies(rows);
    if TiesById(rows) {
      OneStrictOrder(StableRows(rows), OrderBy(rows));
    } else if StableRows(rows) == OrderBy(rows) {
      SortDistinct(rows);
      DistinctOrderIsStrict(StableRows(rows));
      assert false;
    }
  }

  /** When the ties are by id the two answers are one page: same ids, same cents, same has-next. */
  lemma PagesAgree(records: seq<Award>, scope: Scope, parse: Reader, matches: Match)
    requires ValidRecords(records) && ReadsDates(parse)
    requires CheckScope(scope, parse).None?
    requires CheckPayload(WireOf(scope), parse).None?
    requires TiesById(Table(Matching(records, scope, parse, matches)))
    ensures var answer := FirstRows(Found(records, scope, matches), scope.limit);
      Respond(Offered(records, scope), WireOf(scope), parse, matches) == Ok(answer)
  {
    ResultsAgreeIffTiesById(records, scope, parse, matches);
    PageOfTable(SelectSearch(Offered(records, scope), WireOf(scope), parse, matches).value, scope.limit);
  }

  lemma {:induction false} IdsDetermine(rows: seq<Row>, x: Row, y: Row)
    requires DistinctIds(rows) && x in rows && y in rows && x.id == y.id
    ensures x == y
  {
    InTail(x, rows);
    InTail(y, rows);
    if x != rows[0] && y != rows[0] { IdsDetermine(rows[1..], x, y); }
  }

  /** Pages show ids and cents only, and yet equal pages are equal rows. */
  lemma PagesAreRows(a: seq<Row>, b: seq<Row>, limit: nat)
    requires multiset(a) == multiset(b) && DistinctIds(a)
    ensures FirstRows(a, limit) == FirstRows(b, limit) <==> Take(a, limit) == Take(b, limit)
  {
    hide DistinctIds;
    SameLength(a, b);
    var p, q := Take(a, limit), Take(b, limit);
    if FirstRows(a, limit) == FirstRows(b, limit) {
      assert |FirstRows(a, limit).ids| == |p| && |FirstRows(b, limit).ids| == |q|;
      forall i | 0 <= i < |p| ensures p[i] == q[i] {
        assert FirstRows(a, limit).ids[i] == p[i].id && FirstRows(b, limit).ids[i] == q[i].id;
        assert p[i] == a[i] && q[i] == b[i] && b[i] in multiset(a) by { assert b[i] in multiset(b); }
        IdsDetermine(a, p[i], q[i]);
      }
    }
  }

  /** The pages are one exactly when each row the endpoint shows comes before everything after it: ties that end inside
      the page, or reach over its end, must stand by id, and ties behind it do not matter. */
  lemma PagesAgreeIff(records: seq<Award>, scope: Scope, parse: Reader, matches: Match)
    requires ValidRecords(records) && ReadsDates(parse)
    requires CheckScope(scope, parse).None?
    requires CheckPayload(WireOf(scope), parse).None?
    ensures var answer := FirstRows(Found(records, scope, matches), scope.limit);
      Respond(Offered(records, scope), WireOf(scope), parse, matches) == Ok(answer) <==>
      LeadStrict(StableRows(Table(Matching(records, scope, parse, matches))), scope.limit)
  {
    hide Wanted, ValidAmount, CheckScope, ReadsDates, Before, InOrder, LeadStrict, DistinctIds, Take, FirstRows, TextLE;
    var matching := Matching(records, scope, parse, matches);
    var rows := Table(matching);
    FoundIsOrdered(records, scope, parse, matches);
    SortsAlike(matching);
    SortDistinct(rows);
    PageOfTable(StableDescending(matching), scope.limit);
    PagesAreRows(StableRows(rows), OrderBy(rows), scope.limit);
    LeadsAgree(StableRows(rows), OrderBy(rows), scope.limit);
  }

  lemma PageOfTable(s: seq<Award>, limit: nat)
    requires forall x | x in s :: ValidAmount(x.amount)
    ensures FirstRows(Table(s), limit) == Page(Ids(Take(s, limit)), Cents(Take(s, limit)), |s| > limit)
  {
    hide ValidAmount, CentsOf, Table, TextLE;
    var part := Take(s, limit);
    var p := FirstRows(Table(s), limit);
    assert Take(Table(s), limit) == Table(part);
    assert p.ids == Ids(part);
    assert p.cents == Cents(part);
  }

  lemma {:induction false} KeepTies(rows: seq<Row>, q: Row -> bool)
    requires TiesById(rows)
    ensures TiesById(Keep(rows, q))
  {
    if rows != [] {
      KeepTies(rows[1..], q);
      KeepMembers(rows[1..], q);
      assert ([rows[0]] + Keep(rows[1..], q))[1..] == Keep(rows[1..], q);
    }
  }

  /** One look at a dataset settles every question: records whose equal amounts stand by id make the endpoint and
      the reference agree on every scope. */
  lemma OrderedDatasetAgrees(records: seq<Award>, scope: Scope, parse: Reader, matches: Match)
    requires ValidRecords(records) && ReadsDates(parse) && TiesById(Table(records))
    requires CheckScope(scope, parse).None?
    ensures var answer := FirstRows(Found(records, scope, matches), scope.limit);
      Respond(Offered(records, scope), WireOf(scope), parse, matches) == Ok(answer)
  {
    hide ValidAmount, CheckScope, Wanted, TiesById, DistinctIds, Before;
    AcceptedByBoth(scope, parse);
    MatchingTable(records, scope, parse, matches);
    KeepTies(Table(records), row => Wanted(row, scope, matches));
    PagesAgree(records, scope, parse, matches);
  }

  // ---- The date range ----

  /** A whole fiscal year is never too long a range: whatever else an acceptable scope asks, both engines take it. */
  lemma FiscalYearsAreAccepted(fy: nat, scope: Scope, parse: Reader)
    requires ReadsDates(parse) && 2 <= fy <= 9999
    requires scope.start == Iso(Date(fy - 1, 10, 1)) && scope.end == Iso(Date(fy, 9, 30))
    requires 1 <= scope.limit <= 100 && 1 <= |TypesOf(scope)| <= 12
            && forall t | t in TypesOf(scope) :: t in AWARD_TYPES
    requires !BlankText(scope.agency) && !BlankText(scope.subagency) && !BlankText(scope.state)
    requires !BlankText(scope.recipient)
    ensures CheckScope(scope, parse).None? && CheckPayload(WireOf(scope), parse).None?
  {
    var start, end := Date(fy - 1, 10, 1), Date(fy, 9, 30);
    assert parse(Iso(start)) == Some(start) && parse(Iso(end)) == Some(end);
    FiscalYearSpan(fy);
    AcceptedByBoth(scope, parse);
    hide Iso, Ordinal, Blank, TypesOf;
  }

  /** The longest accepted range has 366 days between its ends. */
  lemma LongestRange()
    ensures InRange(Date(2024, 1, 1), Date(2025, 1, 1)) && !InRange(Date(2024, 1, 1), Date(2025, 1, 2))
    ensures InRange(Date(2023, 1, 1), Date(2024, 1, 2)) && !InRange(Date(2023, 1, 1), Date(2024, 1, 3))
    ensures InRange(Date(2024, 1, 1), Date(2024, 1, 1)) && !InRange(Date(2024, 1, 2), Date(2024, 1, 1))
  {
  }

  // ---- Two tied awards in the other order ----

  const ON_DAY := Date(2026, 1, 15)

  function TiedAward(id: string, subagency: string): Award {
    Award(id, "Fictional Aurora Systems LLC", "Department of Transportation", subagency, "PR", "A", Iso(ON_DAY), "1.00")
  }

  const EARLY := TiedAward("SYN-" + "DOT-PR-002", "Federal Highway Administration")
  const LATE := TiedAward("SYN-" + "FAA-PR-001", "Federal Aviation Administration")
  const TIED := [LATE, EARLY]
  const THAT_DAY := Scope(Iso(ON_DAY), Iso(ON_DAY), 100, None, None, None, None, None)

  /** An input of select_search and answer on which the engines differ: the endpoint keeps LATE before EARLY, the
      reference puts EARLY first. */
  lemma TiedDatasetDisagrees(parse: Reader, matches: Match)
    requires ReadsDates(parse)
    ensures ValidRecords(TIED) && CheckScope(THAT_DAY, parse).None?
    ensures SelectSearch(TIED, WireOf(THAT_DAY), parse, matches).Ok?
    ensures var selected := SelectSearch(TIED, WireOf(THAT_DAY), parse, matches).value;
      && (forall x | x in selected :: x in TIED)
      && Table(selected) != Found(TIED, THAT_DAY, matches)
  {
    hide FromIso, DecimalOf;
    assert parse(Iso(ON_DAY)) == Some(ON_DAY);
    TiedAreValid();
    assert InRange(ON_DAY, ON_DAY) && 1 <= |TypesOf(THAT_DAY)| <= 12;
    AcceptedByBoth(THAT_DAY, parse);
    ResultsAgreeIffTiesById(TIED, THAT_DAY, parse, matches);
    BothSelected(parse, matches);
    TiedOutOfOrder();
  }

  lemma BothSelected(parse: Reader, matches: Match)
    requires ReadsDates(parse) && CheckPayload(WireOf(THAT_DAY), parse).None?
    ensures Matching(TIED, THAT_DAY, parse, matches) == TIED
  {
    hide Iso, CheckPayload;
    assert parse(Iso(ON_DAY)) == Some(ON_DAY);
    var keep := r => Selected(r, WireOf(THAT_DAY), parse, matches);
    var a, b := EARLY, LATE;
    assert keep(a) && keep(b) by { assert "A" in CONTRACTS; }
    assert TIED[1..] == [a] && [a][1..] == [];
    assert Keep([a], keep) == [a] + Keep([], keep) == [a];
  }

  lemma TiedOutOfOrder()
    requires ValidAmount("1.00")
    ensures !TiesById(Table(TIED))
  {
    hide ValidAmount, CentsOf, Iso;
    var a, b := RowOf(EARLY), RowOf(LATE);
    assert Table(TIED) == [b, a] && [b, a][1..] == [a];
    LateAfterEarly();
    assert a in [a] && a.cents == b.cents;
  }

  lemma LateAfterEarly()
    ensures !TextLess(LATE.id, EARLY.id)
  {
    PrefixOrder("SYN-", "FAA-PR-001", "DOT-PR-002");
  }

  lemma {:induction false} PrefixOrder(p: string, s: string, t: string)
    ensures TextLE(p + s, p + t) <==> TextLE(s, t)
  {
    if p == [] {
      assert p + s == s && p + t == t;
    } else {
      PrefixOrder(p[1..], s, t);
      assert (p + s)[1..] == p[1..] + s && (p + t)[1..] == p[1..] + t;
    }
  }

  lemma TiedAreValid()
    ensures ValidRecords(TIED) && ValidAmount("1.00")
  {
    IsoRoundTrip(ON_DAY);
    assert ValidAmount("1.00");
    assert LATE.id[4] == 'F' && EARLY.id[4] == 'D';
  }

  // ---- The page total ----

  function Dollars(s: seq<Award>): real
    requires forall x | x in s :: ValidAmount(x.amount)
  {
    if s == [] then 0.0 else
      assert s[|s| - 1] in s;
      Dollars(s[..|s| - 1]) + DecimalOf(s[|s| - 1].amount)
  }

  /** Summing cents and dividing once loses nothing against summing the decimal amounts. */
  lemma {:induction false} TotalIsExact(s: seq<Award>)
    requires forall x | x in s :: ValidAmount(x.amount)
    ensures Total(Cents(s)) as real == Dollars(s) * 100.0
  {
    hide ValidAmount, DecimalOf, CentsOf;
    if s != [] {
      var init := s[..|s| - 1];
      assert s[|s| - 1] in s;
      TotalIsExact(init);
      CentsAreExact(s[|s| - 1].amount);
      assert Cents(s)[..|s| - 1] == Cents(init);
    }
  }

  /** Where the pages agree, the reference's page total is the sum of the decimal amounts the endpoint shows. */
  lemma TotalsAgree(records: seq<Award>, scope: Scope, parse: Reader, matches: Match)
    requires ValidRecords(records) && ReadsDates(parse)
    requires CheckScope(scope, parse).None?
    requires CheckPayload(WireOf(scope), parse).None?
    requires TiesById(Table(Matching(records, scope, parse, matches)))
    ensures SelectSearch(Offered(records, scope), WireOf(scope), parse, matches).Ok?
    ensures var shown := Take(SelectSearch(Offered(records, scope), WireOf(scope), parse, matches).value, scope.limit);
      && (forall x | x in shown :: x in records)
      && Total(FirstRows(Found(records, scope, matches), scope.limit).cents) as real == Dollars(shown) * 100.0
  {
    PagesAgree(records, scope, parse, matches);
    TotalIsExact(Take(SelectSearch(Offered(records, scope), WireOf(scope), parse, matches).value, scope.limit));
  }

  // ---- Recipient names ----

  datatype Names = Names(names: seq<string>, hasNext: bool)

  predicate Ascending(s: seq<string>) {
    s == [] || ((forall x | x in s[1..] :: TextLess(s[0], x)) && Ascending(s[1..]))
  }

  lemma {:induction false} LeastExists(s: set<string>) returns (least: string)
    requires s != {}
    ensures least in s && forall x | x in s :: TextLE(least, x)
  {
    hide TextLE;
    var y :| y in s;
    var rest := s - {y};
    TextLETotal(y, y);
    if rest == {} {
      least := y;
      assert s == {y};
    } else {
      var z := LeastExists(rest);
      TextLETotal(y, z);
      TextLETotal(y, z);
      least := if TextLE(y, z) then y else z;
      forall x | x in s ensures TextLE(least, x) {
        if x != y {
          assert x in rest;
          if least == y { TextLETransitive(y, z, x); }
        }
      }
    }
  }

  /** sorted() of a set of names. */
  ghost function SortedSet(s: set<string>): (r: seq<string>)
    ensures Ascending(r) && forall x :: x in r <==> x in s
  {
    if s == {} then [] else
      assert exists least :: least in s && forall x | x in s :: TextLE(least, x) by { var least := LeastExists(s); }
      var least :| least in s && forall x | x in s :: TextLE(least, x);
      var rest := SortedSet(s - {least});
      assert ([least] + rest)[1..] == rest;
      [least] + rest
  }

  function InsertName(n: string, s: seq<string>): (r: seq<string>)
    requires Ascending(s)
    ensures Ascending(r) && forall x :: x in r <==> x == n || x in s
  {
    if s == [] then
      assert [n][1..] == [];
      [n]
    else if n == s[0] then s
    else if TextLE(n, s[0]) then
      assert ([n] + s)[1..] == s;
      FirstIsLeast(n, s);
      [n] + s
    else
      var rest := InsertName(n, s[1..]);
      assert s == [s[0]] + s[1..] && ([s[0]] + rest)[1..] == rest;
      TextLETotal(n, s[0]);
      [s[0]] + rest
  }

  lemma FirstIsLeast(n: string, s: seq<string>)
    requires s != [] && Ascending(s) && n != s[0] && TextLE(n, s[0])
    ensures forall x | x in s :: TextLess(n, x)
  {
    assert s == [s[0]] + s[1..];
    forall x | x in s ensures TextLess(n, x) {
      if x != s[0] { TextLETransitive(n, s[0], x); }
      if x == n { TextLEAntisymmetric(n, s[0]); }
    }
  }

  /** SELECT DISTINCT recipient ... ORDER BY recipient. */
  function DistinctNames(rows: seq<Row>, keyword: string, matches: Match): (r: seq<string>)
    ensures Ascending(r)
    ensures forall x :: x in r <==> matches(keyword, x) && exists row | row in rows :: row.recipient == x
  {
    if rows == [] then [] else
      var rest := DistinctNames(rows[1..], keyword, matches);
      assert rows == [rows[0]] + rows[1..];
      if matches(keyword, rows[0].recipient) then InsertName(rows[0].recipient, rest) else rest
  }

  lemma {:induction false} OneAscendingOrder(a: seq<string>, b: seq<string>)
    requires Ascending(a) && Ascending(b) && forall x :: x in a <==> x in b
    ensures a == b
  {
    hide TextLess;
    if a == [] {
      SomeMember(b);
    } else {
      assert a[0] in b;
      AscendingHeads(a, b);
      assert a == [a[0]] + a[1..] && b == [b[0]] + b[1..];
      NotBelowItself(a[0]);
      forall x ensures x in a[1..] <==> x in b[1..] {
        assert x in a[1..] <==> x in a && x != a[0];
        assert x in b[1..] <==> x in b && x != b[0];
      }
      OneAscendingOrder(a[1..], b[1..]);
    }
  }

  lemma SomeMember(s: seq<string>)
    ensures s != [] ==> exists x :: x in s
  {
    if s != [] { assert s[0] in s; }
  }

  lemma NotBelowItself(s: string)
    ensures !TextLess(s, s)
  {
  }

  lemma AscendingHeads(a: seq<string>, b: seq<string>)
    requires Ascending(a) && Ascending(b) && (forall x :: x in a <==> x in b) && a != [] && b != []
    ensures a[0] == b[0]
  {
    assert a[0] in b && b[0] in a;
    assert a == [a[0]] + a[1..] && b == [b[0]] + b[1..];
    if a[0] != b[0] { TextLEAntisymmetric(a[0], b[0]); }
  }

  function CheckKeyword(keyword: string, limit: int, legacy: bool): Option<Error> {
    if !(1 <= limit <= 25) then Some(LimitInvalid)
    else if keyword == "" || !legacy then Some(RecipientPayload)
    else None
  }

  lemma KeywordExactly(keyword: string, limit: int, legacy: bool)
    ensures CheckKeyword(keyword, limit, legacy).None? <==> 1 <= limit <= 25 && |keyword| > 0 && legacy
    ensures !(1 <= limit <= 25) ==> CheckKeyword(keyword, limit, legacy) == Some(LimitInvalid)
  {
  }

  ghost function EndpointNames(records: seq<Award>, keyword: string, limit: int, legacy: bool, matches: Match)
    : Result<Names>
  {
    var bad := CheckKeyword(keyword, limit, legacy);
    if bad.Some? then Err(bad.value) else
      var names := SortedSet(set r | r in records && matches(keyword, r.recipient) :: r.recipient);
      Ok(Names(Take(names, limit), |names| > limit))
  }

  function ReferenceNames(records: seq<Award>, keyword: string, limit: int, matches: Match): Result<Names>
    requires forall x | x in records :: ValidAmount(x.amount)
  {
    if Blank(keyword) then Err(ReferenceText)
    else if !(1 <= limit <= 25) then Err(ReferenceLimit)
    else
      var names := DistinctNames(Table(records), keyword, matches);
      Ok(Names(Take(names, limit), |names| > limit))
  }

  /** On recipient names the engines agree on every dataset; they differ only in refusing a blank keyword. */
  lemma NamesAgree(records: seq<Award>, keyword: string, limit: int, matches: Match)
    requires forall x | x in records :: ValidAmount(x.amount)
    ensures var e := EndpointNames(records, keyword, limit, true, matches);
      var r := ReferenceNames(records, keyword, limit, matches);
      && (r.Ok? <==> e.Ok? && !Blank(keyword))
      && (r.Ok? ==> e == r)
  {
    hide ValidAmount, TextLess, Ascending;
    var names := set r | r in records && matches(keyword, r.recipient) :: r.recipient;
    forall x ensures x in names <==> x in DistinctNames(Table(records), keyword, matches) {
      NamedAlike(records, x);
    }
    OneAscendingOrder(SortedSet(names), DistinctNames(Table(records), keyword, matches));
  }

  /** A name stands in some row exactly when it stands in some record. */
  lemma NamedAlike(records: seq<Award>, x: string)
    requires forall r | r in records :: ValidAmount(r.amount)
    ensures (exists row | row in Table(records) :: row.recipient == x) <==>
      (exists r | r in records :: r.recipient == x)
  {
    hide ValidAmount, CentsOf;
    var rows := Table(records);
    if row :| row in rows && row.recipient == x {
      var i :| 0 <= i < |rows| && rows[i] == row;
      assert records[i] in records && records[i].recipient == x;
    }
    if r :| r in records && r.recipient == x {
      var i :| 0 <= i < |records| && records[i] == r;
      assert rows[i] in rows && rows[i].recipient == x;
    }
  }
}
