/**
 * The `entries` table and the queries over it (backend/models/Entry.js).
 *
 * The table is a sequence of rows in insertion order. Every SELECT is a pure
 * function of that sequence and of the database clock `now`, in whole
 * seconds; `INTERVAL m MINUTE` is `60 * m` seconds and `INTERVAL d DAY` is
 * `86400 * d` seconds. The statements that change the table (INSERT, UPDATE,
 * DELETE) are the methods of `EntryTable`.
 */
module Ledger {
  import opened Wrappers
  import opened JsText
  import opened Houses

  /** One row of `entries`; `reason` is nullable and `timestamp` is in seconds. */
  datatype Entry = Entry(id: int, house: string, points: int, reason: Option<string>, timestamp: int)

  /**
   * Why a statement fails: the database is unreachable, the house is not in
   * `houses` (the foreign key), or a value does not fit its column or its
   * clause (NaN, an `INT` out of range, a reason longer than 255 characters,
   * a negative `LIMIT`), as MySQL reports in strict mode.
   */
  datatype StoreError = Unavailable | UnknownHouse | BadValue

  const SecondsPerMinute: int := 60
  const SecondsPerDay: int := 86400

  // ---------------------------------------------------------------------------
  // Selecting rows
  // ---------------------------------------------------------------------------

  /** The rows of `s` that satisfy `p`, in their original order (a WHERE clause). */
  function Filter<T(!new)>(s: seq<T>, p: T -> bool): (r: seq<T>)
    ensures |r| <= |s|
    ensures forall x :: x in r <==> x in s && p(x)
  {
    if s == [] then []
    else (if p(s[0]) then [s[0]] else []) + Filter(s[1..], p)
  }

  /** Filtering keeps every satisfying row as often as it occurs and drops the rest. */
  lemma {:induction false} FilterCount<T(!new)>(s: seq<T>, p: T -> bool, x: T)
    ensures multiset(Filter(s, p))[x] == if p(x) then multiset(s)[x] else 0
  {
    if s != [] {
      FilterCount(s[1..], p, x);
      assert s == [s[0]] + s[1..];
    }
  }

  /** Filtering distributes over concatenation: what it keeps stays in its original order. */
  lemma {:induction false} FilterAppend<T(!new)>(a: seq<T>, b: seq<T>, p: T -> bool)
    ensures Filter(a + b, p) == Filter(a, p) + Filter(b, p)
  {
    if a == [] {
      assert a + b == b;
    } else {
      assert (a + b)[0] == a[0] && (a + b)[1..] == a[1..] + b;
      FilterAppend(a[1..], b, p);
    }
  }

  /** A weaker condition keeps at least as many rows. */
  lemma {:induction false} FilterWeaker<T(!new)>(s: seq<T>, p: T -> bool, q: T -> bool)
    requires forall x :: p(x) ==> q(x)
    ensures |Filter(s, p)| <= |Filter(s, q)|
    ensures multiset(Filter(s, p)) <= multiset(Filter(s, q))
  {
    if s != [] {
      FilterWeaker(s[1..], p, q);
    }
  }

  /** A condition and its negation split the rows between them. */
  lemma {:induction false} FilterSplit<T(!new)>(s: seq<T>, p: T -> bool, q: T -> bool)
    requires forall x :: q(x) == !p(x)
    ensures |Filter(s, p)| + |Filter(s, q)| == |s|
    ensures multiset(Filter(s, p)) + multiset(Filter(s, q)) == multiset(s)
  {
    if s != [] {
      FilterSplit(s[1..], p, q);
      assert s == [s[0]] + s[1..];
    }
  }

  // ---------------------------------------------------------------------------
  // Aggregates
  // ---------------------------------------------------------------------------

  /** `SUM(points)`, with 0 for no rows (`COALESCE(SUM(e.points), 0)`). */
  function TotalPoints(s: seq<Entry>): int {
    if s == [] then 0 else s[0].points + TotalPoints(s[1..])
  }

  lemma {:induction false} TotalPointsAppend(a: seq<Entry>, b: seq<Entry>)
    ensures TotalPoints(a + b) == TotalPoints(a) + TotalPoints(b)
  {
    if a == [] {
      assert a + b == b;
    } else {
      assert (a + b)[0] == a[0] && (a + b)[1..] == a[1..] + b;
      TotalPointsAppend(a[1..], b);
    }
  }

  /** `MAX(timestamp)`: NULL for no rows, otherwise the latest timestamp among them. */
  function LastActivity(s: seq<Entry>): (r: Option<int>)
    ensures r.None? <==> s == []
    ensures r.Some? ==> exists e :: e in s && e.timestamp == r.value
    ensures r.Some? ==> forall e :: e in s ==> e.timestamp <= r.value
  {
    if s == [] then None
    else
      assert s == [s[0]] + s[1..];
      match LastActivity(s[1..])
      case None => Some(s[0].timestamp)
      case Some(t) => Some(if s[0].timestamp > t then s[0].timestamp else t)
  }

  // ---------------------------------------------------------------------------
  // The leaderboard: houses LEFT JOIN entries, grouped, ordered and ranked
  // ---------------------------------------------------------------------------

  /** One leaderboard row; `rank` is 0 until the rows are numbered. */
  datatype Standing = Standing(
    house: string, color: string, totalPoints: int, totalEntries: nat,
    lastActivity: Option<int>, rank: nat)

  /** `if (minutes)`: a window filters only when it is present and non-zero. */
  predicate FiltersWindow(minutes: Option<int>) {
    minutes.Some? && minutes.value != 0
  }

  /** `e.timestamp >= DATE_SUB(NOW(), INTERVAL minutes MINUTE)`. */
  predicate WithinMinutes(e: Entry, minutes: int, now: int) {
    e.timestamp >= now - SecondsPerMinute * minutes
  }

  /** The join condition of the leaderboard: `h.name = e.house`, plus the window when it filters. */
  predicate Counts(e: Entry, house: string, minutes: Option<int>, now: int) {
    e.house == house && (FiltersWindow(minutes) ==> WithinMinutes(e, minutes.value, now))
  }

  /** The entries the LEFT JOIN attaches to `house`. */
  function HouseEntries(rows: seq<Entry>, house: string, minutes: Option<int>, now: int): seq<Entry> {
    Filter(rows, (e: Entry) => Counts(e, house, minutes, now))
  }

  /** The grouped, not yet ranked, row of the `i`-th house. */
  function Tally(rows: seq<Entry>, i: nat, minutes: Option<int>, now: int): Standing
    requires i < |Names| == |Colors|
  {
    var es := HouseEntries(rows, Names[i], minutes, now);
    Standing(Names[i], Colors[i], TotalPoints(es), |es|, LastActivity(es), 0)
  }

  function Tallies(rows: seq<Entry>, minutes: Option<int>, now: int): (r: seq<Standing>)
    ensures |r| == |Names|
    ensures forall i :: 0 <= i < |r| ==> r[i] == Tally(rows, i, minutes, now)
  {
    seq(|Names|, i requires 0 <= i < |Names| => Tally(rows, i, minutes, now))
  }

  /** `ORDER BY total_points DESC, h.name ASC`: may `a` come before `b`? */
  predicate Ahead(a: Standing, b: Standing) {
    a.totalPoints > b.totalPoints || (a.totalPoints == b.totalPoints && NameLe(a.house, b.house))
  }

  predicate InStandingOrder(s: seq<Standing>) {
    forall i, j :: 0 <= i < j < |s| ==> Ahead(s[i], s[j])
  }

  lemma AheadTotal(a: Standing, b: Standing)
    ensures Ahead(a, b) || Ahead(b, a)
  {
    NameLeTotal(a.house, b.house);
  }

  lemma AheadTransitive(a: Standing, b: Standing, c: Standing)
    requires Ahead(a, b) && Ahead(b, c)
    ensures Ahead(a, c)
  {
    if a.totalPoints == b.totalPoints == c.totalPoints {
      NameLeTransitive(a.house, b.house, c.house);
    }
  }

  function InsertStanding(x: Standing, s: seq<Standing>): (r: seq<Standing>)
    requires InStandingOrder(s)
    ensures multiset(r) == multiset(s) + multiset{x}
    ensures InStandingOrder(r)
  {
    if s == [] then [x]
    else if Ahead(x, s[0]) then
      AheadOfAll(x, s);
      [x] + s
    else
      var t := InsertStanding(x, s[1..]);
      AheadTotal(x, s[0]);
      assert s == [s[0]] + s[1..];
      BehindFirst(s, x, t);
      [s[0]] + t
  }

  /** What may come before the head of a list in leaderboard order may come before all of it. */
  lemma AheadOfAll(x: Standing, s: seq<Standing>)
    requires InStandingOrder(s) && s != [] && Ahead(x, s[0])
    ensures forall j :: 0 <= j < |s| ==> Ahead(x, s[j])
  {
    forall j | 0 <= j < |s| ensures Ahead(x, s[j]) {
      if j > 0 {
        AheadTransitive(x, s[0], s[j]);
      }
    }
  }

  /** The head of a list in leaderboard order may come before the rest with a later standing put in. */
  lemma BehindFirst(s: seq<Standing>, x: Standing, t: seq<Standing>)
    requires InStandingOrder(s) && s != [] && Ahead(s[0], x)
    requires multiset(t) == multiset(s[1..]) + multiset{x}
    ensures forall j :: 0 <= j < |t| ==> Ahead(s[0], t[j])
  {
    forall j | 0 <= j < |t| ensures Ahead(s[0], t[j]) {
      assert t[j] in multiset(t);
    }
  }

  /** Insertion sort into leaderboard order. */
  function SortStandings(s: seq<Standing>): (r: seq<Standing>)
    ensures multiset(r) == multiset(s)
    ensures InStandingOrder(r)
  {
    if s == [] then []
    else
      assert s == [s[0]] + s[1..];
      InsertStanding(s[0], SortStandings(s[1..]))
  }

  /** `rows.map((row, index) => ({ ...row, rank: index + 1 }))`. */
  function Ranked(s: seq<Standing>): (r: seq<Standing>)
    ensures |r| == |s|
    ensures forall i :: 0 <= i < |s| ==> r[i] == s[i].(rank := i + 1)
  {
    seq(|s|, i requires 0 <= i < |s| => s[i].(rank := i + 1))
  }

  /** The colour the `houses` table gives a house. */
  function ColorOf(house: string): string
    requires IsHouse(house)
  {
    if house == Names[0] then Colors[0]
    else if house == Names[1] then Colors[1]
    else if house == Names[2] then Colors[2]
    else Colors[3]
  }

  lemma {:induction false} DistinctByMultiset<T>(a: seq<T>, b: seq<T>)
    requires multiset(a) == multiset(b)
    requires forall i, j :: 0 <= i < j < |b| ==> b[i] != b[j]
    ensures forall i, j :: 0 <= i < j < |a| ==> a[i] != a[j]
  {
    forall x ensures multiset(b)[x] <= 1 {
      DistinctCount(b, x);
    }
    forall i, j | 0 <= i < j < |a| ensures a[i] != a[j] {
      RepeatCounts(a, i, j);
    }
  }

  /** Two equal elements at different positions make that element occur at least twice. */
  lemma RepeatCounts<T>(a: seq<T>, i: nat, j: nat)
    requires i < j < |a|
    ensures a[i] == a[j] ==> multiset(a)[a[i]] >= 2
  {
    assert a == a[..i] + [a[i]] + a[i + 1..j] + [a[j]] + a[j + 1..];
  }

  lemma {:induction false} DistinctCount<T>(b: seq<T>, x: T)
    requires forall i, j :: 0 <= i < j < |b| ==> b[i] != b[j]
    ensures multiset(b)[x] <= 1
  {
    if b != [] {
      DistinctCount(b[1..], x);
      assert b == [b[0]] + b[1..];
      if b[0] == x {
        assert x !in b[1..];
      }
    }
  }

  /** `st` is the grouped row of its house: its colour, and the sum, count and latest time of its entries in the window. */
  predicate Summarises(st: Standing, rows: seq<Entry>, minutes: Option<int>, now: int) {
    && IsHouse(st.house)
    && st.color == ColorOf(st.house)
    && st.totalPoints == TotalPoints(HouseEntries(rows, st.house, minutes, now))
    && st.totalEntries == |HouseEntries(rows, st.house, minutes, now)|
    && st.lastActivity == LastActivity(HouseEntries(rows, st.house, minutes, now))
  }

  lemma TallySummarises(rows: seq<Entry>, k: nat, minutes: Option<int>, now: int)
    requires k < |Names| == |Colors|
    ensures Summarises(Tally(rows, k, minutes, now), rows, minutes, now)
  {
    NamesDistinct();
  }

  /** Sorting a table with one row per house, in `houses` order, still holds each house exactly once. */
  lemma SortedHouses(t: seq<Standing>)
    requires |t| == |Names|
    requires forall k :: 0 <= k < |t| ==> t[k].house == Names[k]
    ensures var s := SortStandings(t);
      && |s| == |Names|
      && (forall i :: 0 <= i < |s| ==> s[i] in t)
      && (forall i, j :: 0 <= i < j < |s| ==> s[i].house != s[j].house)
      && (forall k :: 0 <= k < |Names| ==> exists i :: 0 <= i < |s| && s[i].house == Names[k])
  {
    var s := SortStandings(t);
    NamesDistinct();
    assert |s| == |Names| by {
      assert |multiset(s)| == |multiset(t)|;
    }
    forall i | 0 <= i < |s| ensures s[i] in t {
      assert s[i] in multiset(t);
    }
    DistinctByMultiset(s, t);
    forall i, j | 0 <= i < j < |s| ensures s[i].house != s[j].house {
      var ki :| 0 <= ki < |t| && s[i] == t[ki];
      var kj :| 0 <= kj < |t| && s[j] == t[kj];
    }
    forall k | 0 <= k < |Names| ensures exists i :: 0 <= i < |s| && s[i].house == Names[k] {
      assert t[k] in multiset(s);
    }
  }

  /**
   * `getLeaderboard(minutes)`: exactly one row per house, even for a house
   * with no entries in the window (total 0, count 0, no last activity); each
   * row aggregates that house's entries in the window (all of them when
   * `minutes` is null or 0); rows go by total descending, then by name
   * ascending, and are ranked 1..N by position, so ranks are dense even
   * when totals tie.
   */
  function Leaderboard(rows: seq<Entry>, minutes: Option<int>, now: int): (r: seq<Standing>)
    ensures |r| == |Names|
    ensures forall i :: 0 <= i < |r| ==> r[i].rank == i + 1
    ensures forall i :: 0 <= i < |r| ==> Summarises(r[i], rows, minutes, now)
    ensures forall h :: IsHouse(h) ==> exists i :: 0 <= i < |r| && r[i].house == h
    ensures forall i, j :: 0 <= i < j < |r| ==>
      || r[i].totalPoints > r[j].totalPoints
      || (r[i].totalPoints == r[j].totalPoints && NameLt(r[i].house, r[j].house))
  {
    var s := SortStandings(Tallies(rows, minutes, now));
    SortedStandings(rows, minutes, now);
    RankedKeeps(s, rows, minutes, now);
    forall h | IsHouse(h) ensures HasHouse(Ranked(s), h) {
      var k :| 0 <= k < |Names| && Names[k] == h;
    }
    Ranked(s)
  }

  /** Every row summarises its house's entries in the window. */
  predicate AllSummarise(s: seq<Standing>, rows: seq<Entry>, minutes: Option<int>, now: int) {
    forall i :: 0 <= i < |s| ==> Summarises(s[i], rows, minutes, now)
  }

  /** Some row of `s` is that of `house`. */
  predicate HasHouse(s: seq<Standing>, house: string) {
    exists i :: 0 <= i < |s| && s[i].house == house
  }

  /** Every house of `houses` has a row. */
  predicate CoversHouses(s: seq<Standing>) {
    forall k :: 0 <= k < |Names| ==> HasHouse(s, Names[k])
  }

  /** Rows go strictly by total descending, then by name ascending. */
  predicate StrictlyOrdered(s: seq<Standing>) {
    forall i, j :: 0 <= i < j < |s| ==>
      || s[i].totalPoints > s[j].totalPoints
      || (s[i].totalPoints == s[j].totalPoints && NameLt(s[i].house, s[j].house))
  }

  /** A board: one row per house, each summarising the window, strictly ordered. */
  predicate Board(s: seq<Standing>, rows: seq<Entry>, minutes: Option<int>, now: int) {
    |s| == |Names| && AllSummarise(s, rows, minutes, now) && CoversHouses(s) && StrictlyOrdered(s)
  }

  /** Ordering the grouped rows gives such a board. */
  lemma SortedStandings(rows: seq<Entry>, minutes: Option<int>, now: int)
    ensures Board(SortStandings(Tallies(rows, minutes, now)), rows, minutes, now)
  {
    SortedSummarise(rows, minutes, now);
    SortedCover(Tallies(rows, minutes, now));
  }

  /** Sorting the grouped rows keeps one row per house, in strict order. */
  lemma SortedCover(t: seq<Standing>)
    requires |t| == |Names|
    requires forall k :: 0 <= k < |t| ==> t[k].house == Names[k]
    ensures var s := SortStandings(t); |s| == |Names| && CoversHouses(s) && StrictlyOrdered(s)
  {
    SortedHouses(t);
    StrictOrder(SortStandings(t));
  }

  /** Numbering the rows keeps it one. */
  lemma RankedKeeps(s: seq<Standing>, rows: seq<Entry>, minutes: Option<int>, now: int)
    requires Board(s, rows, minutes, now)
    ensures Board(Ranked(s), rows, minutes, now)
  {
    RankedSummarises(s, rows, minutes, now);
    var r := Ranked(s);
    forall k | 0 <= k < |Names| ensures HasHouse(r, Names[k]) {
      var i :| 0 <= i < |s| && s[i].house == Names[k];
      assert r[i].house == Names[k];
    }
    assert StrictlyOrdered(r) by {
      forall i, j | 0 <= i < j < |r|
        ensures || r[i].totalPoints > r[j].totalPoints
                || (r[i].totalPoints == r[j].totalPoints && NameLt(r[i].house, r[j].house))
      {
      assert r[i].totalPoints == s[i].totalPoints && r[i].house == s[i].house;
        assert r[j].totalPoints == s[j].totalPoints && r[j].house == s[j].house;
      }
    }
  }

  /** Numbering the rows changes nothing a row summarises. */
  lemma RankedSummarises(s: seq<Standing>, rows: seq<Entry>, minutes: Option<int>, now: int)
    requires AllSummarise(s, rows, minutes, now)
    ensures AllSummarise(Ranked(s), rows, minutes, now)
  {
    forall i | 0 <= i < |s| ensures Summarises(Ranked(s)[i], rows, minutes, now) {
      var x := s[i];
      assert Summarises(x, rows, minutes, now);
      assert Ranked(s)[i] == Standing(x.house, x.color, x.totalPoints, x.totalEntries, x.lastActivity, i + 1);
    }
  }

  lemma SortedSummarise(rows: seq<Entry>, minutes: Option<int>, now: int)
    ensures AllSummarise(SortStandings(Tallies(rows, minutes, now)), rows, minutes, now)
  {
    var t := Tallies(rows, minutes, now);
    forall k | 0 <= k < |t| ensures Summarises(t[k], rows, minutes, now) {
      TallySummarises(rows, k, minutes, now);
    }
    var s := SortStandings(t);
    forall i | 0 <= i < |s| ensures Summarises(s[i], rows, minutes, now) {
      assert s[i] in multiset(t);
    }
  }

  /** With distinct houses, leaderboard order is strict: equal totals are told apart by name. */
  lemma StrictOrder(s: seq<Standing>)
    requires InStandingOrder(s)
    requires forall i, j :: 0 <= i < j < |s| ==> s[i].house != s[j].house
    ensures forall i, j :: 0 <= i < j < |s| ==>
      || s[i].totalPoints > s[j].totalPoints
      || (s[i].totalPoints == s[j].totalPoints && NameLt(s[i].house, s[j].house))
  {
  }

  // ---------------------------------------------------------------------------
  // Entries newest first
  // ---------------------------------------------------------------------------

  /** `ORDER BY e.timestamp DESC`. */
  predicate NewestFirst(s: seq<Entry>) {
    forall i, j :: 0 <= i < j < |s| ==> s[i].timestamp >= s[j].timestamp
  }

  function InsertByTime(x: Entry, s: seq<Entry>): (r: seq<Entry>)
    requires NewestFirst(s)
    ensures multiset(r) == multiset(s) + multiset{x}
    ensures NewestFirst(r)
  {
    if s == [] then [x]
    else if x.timestamp >= s[0].timestamp then [x] + s
    else
      var t := InsertByTime(x, s[1..]);
      assert s == [s[0]] + s[1..];
      NoneNewer(s, x, t);
      [s[0]] + t
  }

  /** Inserting an older row into the tail leaves the head the newest. */
  lemma NoneNewer(s: seq<Entry>, x: Entry, t: seq<Entry>)
    requires NewestFirst(s) && s != [] && x.timestamp < s[0].timestamp
    requires multiset(t) == multiset(s[1..]) + multiset{x}
    ensures forall j :: 0 <= j < |t| ==> s[0].timestamp >= t[j].timestamp
  {
    forall j | 0 <= j < |t| ensures s[0].timestamp >= t[j].timestamp {
      assert t[j] in multiset(t);
    }
  }

  /** Insertion sort, newest first; rows with equal timestamps keep no promised order. */
  function SortNewestFirst(s: seq<Entry>): (r: seq<Entry>)
    ensures multiset(r) == multiset(s)
    ensures NewestFirst(r)
  {
    if s == [] then []
    else
      assert s == [s[0]] + s[1..];
      InsertByTime(s[0], SortNewestFirst(s[1..]))
  }

  /** `JOIN houses h ON e.house = h.name` keeps the rows whose house is in `houses`. */
  predicate Joined(e: Entry) {
    IsHouse(e.house)
  }

  predicate InTimeWindow(e: Entry, minutes: int, now: int) {
    Joined(e) && WithinMinutes(e, minutes, now)
  }

  /**
   * `getEntriesInTimeWindow(minutes)`: exactly the rows (each as often as it
   * occurs) whose timestamp is at or after `now` minus `minutes` minutes,
   * newest first.
   */
  function EntriesInTimeWindow(rows: seq<Entry>, minutes: int, now: int): (r: seq<Entry>)
    ensures forall e :: e in r <==> e in rows && Joined(e) && e.timestamp >= now - 60 * minutes
    ensures forall e :: multiset(r)[e] == if InTimeWindow(e, minutes, now) then multiset(rows)[e] else 0
    ensures NewestFirst(r)
  {
    var p := (e: Entry) => InTimeWindow(e, minutes, now);
    forall e ensures multiset(Filter(rows, p))[e] == if p(e) then multiset(rows)[e] else 0 {
      FilterCount(rows, p, e);
    }
    SortNewestFirst(Filter(rows, p))
  }

  function Min(a: int, b: int): int {
    if a <= b then a else b
  }

  /** The rows the JOIN of the activity queries keeps. */
  function JoinedRows(rows: seq<Entry>): seq<Entry> {
    Filter(rows, Joined)
  }

  /** Cutting a list in two splits its multiset of rows the same way. */
  lemma PrefixRest(s: seq<Entry>, k: nat)
    requires k <= |s|
    ensures multiset(s[..k]) <= multiset(s)
    ensures multiset(s) - multiset(s[..k]) == multiset(s[k..])
  {
    assert s == s[..k] + s[k..];
  }

  /** Keeping the first `k` of a newest-first list leaves out nothing newer than what it keeps. */
  lemma NewestPrefix(s: seq<Entry>, k: nat)
    requires NewestFirst(s) && k <= |s|
    ensures NewestFirst(s[..k])
    ensures multiset(s[..k]) <= multiset(s)
    ensures forall e, x :: e in multiset(s) - multiset(s[..k]) && x in s[..k] ==> e.timestamp <= x.timestamp
  {
    PrefixRest(s, k);
    forall e, x | e in multiset(s[k..]) && x in s[..k] ensures e.timestamp <= x.timestamp {
      assert e in s[k..];
      var j :| k <= j < |s| && s[j] == e;
      var i :| 0 <= i < k && s[i] == x;
      assert s[i].timestamp >= s[j].timestamp;
    }
  }

  /** `ORDER BY timestamp DESC LIMIT k`: the `k` newest rows, newest first. */
  function TakeNewest(s: seq<Entry>, k: nat): (r: seq<Entry>)
    ensures |r| == Min(k, |s|)
    ensures NewestFirst(r)
    ensures multiset(r) <= multiset(s)
    ensures forall e, x :: e in multiset(s) - multiset(r) && x in r ==> e.timestamp <= x.timestamp
  {
    var t := SortNewestFirst(s);
    NewestPrefix(t, Min(k, |t|));
    t[..Min(k, |t|)]
  }

  /**
   * `getRecentActivity(limit)`: the SQL text is `LIMIT ${parseInt(limit, 10)}`,
   * so NaN or a negative limit makes the statement fail. Otherwise at most
   * `limit` rows, newest first, and every row left out is no newer than any
   * row returned.
   */
  function RecentActivity(rows: seq<Entry>, limit: Num): (r: Result<seq<Entry>, StoreError>)
    ensures r.Failure? <==> limit.NaN? || limit.n < 0
    ensures r.Success? ==> |r.value| == Min(limit.n, |JoinedRows(rows)|)
    ensures r.Success? ==> NewestFirst(r.value)
    ensures r.Success? ==> multiset(r.value) <= multiset(JoinedRows(rows))
    ensures r.Success? ==> forall e, x :: e in multiset(JoinedRows(rows)) - multiset(r.value) && x in r.value ==>
      e.timestamp <= x.timestamp
  {
    if limit.NaN? || limit.n < 0 then Failure(BadValue)
    else Success(TakeNewest(JoinedRows(rows), limit.n))
  }

  // ---------------------------------------------------------------------------
  // House statistics
  // ---------------------------------------------------------------------------

  /** The grouped row of `getHouseStats`; `AVG(points)` is left out. */
  datatype Stats = Stats(
    house: string, totalEntries: nat, totalPoints: int, maxPoints: int, minPoints: int,
    positivePoints: int, negativePoints: int)

  /** `WHERE house = ?`. */
  function OfHouse(rows: seq<Entry>, house: string): seq<Entry> {
    Filter(rows, (e: Entry) => e.house == house)
  }

  /** `SUM(CASE WHEN points > 0 THEN points ELSE 0 END)`. */
  function PositivePoints(s: seq<Entry>): (r: int)
    ensures r >= 0
  {
    if s == [] then 0 else (if s[0].points > 0 then s[0].points else 0) + PositivePoints(s[1..])
  }

  /** `SUM(CASE WHEN points < 0 THEN points ELSE 0 END)`. */
  function NegativePoints(s: seq<Entry>): (r: int)
    ensures r <= 0
  {
    if s == [] then 0 else (if s[0].points < 0 then s[0].points else 0) + NegativePoints(s[1..])
  }

  /** The positive part is the sum of the rows with positive points. */
  lemma {:induction false} PositivePointsFiltered(s: seq<Entry>)
    ensures PositivePoints(s) == TotalPoints(Filter(s, (e: Entry) => e.points > 0))
  {
    if s != [] {
      PositivePointsFiltered(s[1..]);
      var f := (e: Entry) => e.points > 0;
      TotalPointsAppend(if f(s[0]) then [s[0]] else [], Filter(s[1..], f));
    }
  }

  /** The negative part is the sum of the rows with negative points. */
  lemma {:induction false} NegativePointsFiltered(s: seq<Entry>)
    ensures NegativePoints(s) == TotalPoints(Filter(s, (e: Entry) => e.points < 0))
  {
    if s != [] {
      NegativePointsFiltered(s[1..]);
      var f := (e: Entry) => e.points < 0;
      TotalPointsAppend(if f(s[0]) then [s[0]] else [], Filter(s[1..], f));
    }
  }

  lemma {:induction false} SignsAddUp(s: seq<Entry>)
    ensures PositivePoints(s) + NegativePoints(s) == TotalPoints(s)
  {
    if s != [] {
      SignsAddUp(s[1..]);
    }
  }

  /** `MAX(points)` over a non-empty group. */
  function MaxPoints(s: seq<Entry>): (r: int)
    requires s != []
    ensures exists e :: e in s && e.points == r
    ensures forall e :: e in s ==> e.points <= r
  {
    assert s == [s[0]] + s[1..];
    if |s| == 1 then s[0].points
    else
      var m := MaxPoints(s[1..]);
      if s[0].points > m then s[0].points else m
  }

  /** `MIN(points)` over a non-empty group. */
  function MinPoints(s: seq<Entry>): (r: int)
    requires s != []
    ensures exists e :: e in s && e.points == r
    ensures forall e :: e in s ==> r <= e.points
  {
    assert s == [s[0]] + s[1..];
    if |s| == 1 then s[0].points
    else
      var m := MinPoints(s[1..]);
      if s[0].points < m then s[0].points else m
  }

  /**
   * `getHouseStats(house)`: null exactly when the house has no rows
   * (`rows[0] || null`); otherwise the count and sum of its rows, its
   * largest and smallest points, and the sums of its positive and of its
   * negative points, which add up to the total.
   */
  function HouseStats(rows: seq<Entry>, house: string): (r: Option<Stats>)
    ensures r.None? <==> forall e :: e in rows ==> e.house != house
    ensures r.Some? ==>
      && r.value.house == house
      && r.value.totalEntries == |OfHouse(rows, house)|
      && r.value.totalPoints == TotalPoints(OfHouse(rows, house))
      && r.value.positivePoints == PositivePoints(OfHouse(rows, house))
      && r.value.negativePoints == NegativePoints(OfHouse(rows, house))
      && r.value.positivePoints + r.value.negativePoints == r.value.totalPoints
      && r.value.positivePoints >= 0 >= r.value.negativePoints
      && r.value.minPoints <= r.value.maxPoints
      && (forall e :: e in rows && e.house == house ==> r.value.minPoints <= e.points <= r.value.maxPoints)
      && (exists e :: e in rows && e.house == house && e.points == r.value.maxPoints)
      && (exists e :: e in rows && e.house == house && e.points == r.value.minPoints)
  {
    var es := OfHouse(rows, house);
    if es == [] then None
    else
      SignsAddUp(es);
      assert es[0] in es;
      Some(Stats(house, |es|, TotalPoints(es), MaxPoints(es), MinPoints(es),
                 PositivePoints(es), NegativePoints(es)))
  }

  // ---------------------------------------------------------------------------
  // Retention
  // ---------------------------------------------------------------------------

  /** `timestamp < DATE_SUB(NOW(), INTERVAL daysOld DAY)`. */
  predicate Expired(e: Entry, daysOld: int, now: int) {
    e.timestamp < now - SecondsPerDay * daysOld
  }

  /** The rows `deleteOldEntries(daysOld)` keeps, in their original order. */
  function Retained(rows: seq<Entry>, daysOld: int, now: int): seq<Entry> {
    Filter(rows, (e: Entry) => !Expired(e, daysOld, now))
  }

  /** The rows `deleteOldEntries(daysOld)` removes. */
  function Purged(rows: seq<Entry>, daysOld: int, now: int): seq<Entry> {
    Filter(rows, (e: Entry) => Expired(e, daysOld, now))
  }

  /**
   * Retention removes exactly the expired rows: what is kept and what is
   * removed together make up the table, the count removed is the difference
   * in size, and no kept row is expired nor any removed row recent.
   */
  lemma RetentionSplits(rows: seq<Entry>, daysOld: int, now: int)
    ensures |Retained(rows, daysOld, now)| + |Purged(rows, daysOld, now)| == |rows|
    ensures multiset(Retained(rows, daysOld, now)) + multiset(Purged(rows, daysOld, now)) == multiset(rows)
    ensures forall e :: e in Retained(rows, daysOld, now) ==> e.timestamp >= now - 86400 * daysOld
    ensures forall e :: e in Purged(rows, daysOld, now) ==> e.timestamp < now - 86400 * daysOld
  {
    FilterSplit(rows, (e: Entry) => Expired(e, daysOld, now), (e: Entry) => !Expired(e, daysOld, now));
  }

  // ---------------------------------------------------------------------------
  // The table itself: INSERT, UPDATE and DELETE
  // ---------------------------------------------------------------------------

  /** The range of an `INT` column. */
  const IntMin: int := -0x8000_0000
  const IntMax: int := 0x7FFF_FFFF

  /** `reason VARCHAR(255)`. */
  const ReasonMaxLength: nat := 255

  /** The error an INSERT of these values raises, if any. */
  function InsertError(house: string, points: int, reason: Option<string>, storeUp: bool): Option<StoreError> {
    if !storeUp then Some(Unavailable)
    else if !IsHouse(house) then Some(UnknownHouse)
    else if points < IntMin || points > IntMax then Some(BadValue)
    else if reason.Some? && |reason.value| > ReasonMaxLength then Some(BadValue)
    else None
  }

  /** Row ids ascend in table order, as `AUTO_INCREMENT` hands them out. */
  predicate IdsAscending(rows: seq<Entry>) {
    forall i, j :: 0 <= i < j < |rows| ==> rows[i].id < rows[j].id
  }

  lemma {:induction false} FilterKeepsIdsAscending(rows: seq<Entry>, p: Entry -> bool)
    requires IdsAscending(rows)
    ensures IdsAscending(Filter(rows, p))
  {
    if rows != [] {
      FilterKeepsIdsAscending(rows[1..], p);
      var t := Filter(rows[1..], p);
      forall j | 0 <= j < |t| ensures rows[0].id < t[j].id {
        assert t[j] in rows[1..];
      }
    }
  }

  /** `rows` with the timestamp of the row whose id is `id` set to `ts` (`UPDATE … WHERE id = ?`). */
  function Restamp(rows: seq<Entry>, id: int, ts: int): (r: seq<Entry>)
    ensures |r| == |rows|
    ensures forall i :: 0 <= i < |r| ==> r[i] == if rows[i].id == id then rows[i].(timestamp := ts) else rows[i]
  {
    seq(|rows|, i requires 0 <= i < |rows| => if rows[i].id == id then rows[i].(timestamp := ts) else rows[i])
  }

  /**
   * A row the schema accepts, numbered below `bound`: a house of `houses`
   * (the foreign key), points that fit `INT`, a reason that fits `VARCHAR(255)`.
   */
  predicate Fits(e: Entry, bound: int) {
    && 1 <= e.id < bound
    && IsHouse(e.house)
    && IntMin <= e.points <= IntMax
    && (e.reason.Some? ==> |e.reason.value| <= ReasonMaxLength)
  }

  predicate AllFit(rows: seq<Entry>, bound: int) {
    forall e :: e in rows ==> Fits(e, bound)
  }

  /** A row the INSERT accepts, numbered `bound`, extends a fitting table below `bound + 1`. */
  lemma AppendFits(rows: seq<Entry>, e: Entry, bound: int)
    requires IdsAscending(rows) && AllFit(rows, bound) && e.id == bound >= 1
    requires InsertError(e.house, e.points, e.reason, true).None?
    ensures IdsAscending(rows + [e]) && AllFit(rows + [e], bound + 1)
  {
    var r := rows + [e];
    forall x | x in r ensures Fits(x, bound + 1) {
      if x != e {
        assert x in rows;
      }
    }
    forall i, j | 0 <= i < j < |r| ensures r[i].id < r[j].id {
      if j == |rows| {
        assert r[i] == rows[i] && rows[i] in rows;
      }
    }
  }

  /** Re-stamping changes no id, house, points or reason, so every row still fits the schema. */
  lemma RestampKeepsRows(rows: seq<Entry>, id: int, ts: int, bound: int)
    requires IdsAscending(rows) && AllFit(rows, bound)
    ensures IdsAscending(Restamp(rows, id, ts)) && AllFit(Restamp(rows, id, ts), bound)
  {
    var updated := Restamp(rows, id, ts);
    forall e | e in updated ensures Fits(e, bound) {
      var i :| 0 <= i < |updated| && updated[i] == e;
      assert rows[i] in rows;
    }
  }

  /** How many rows have id `id`: the `affectedRows` of the UPDATE. */
  function CountId(rows: seq<Entry>, id: int): nat {
    |Filter(rows, (e: Entry) => e.id == id)|
  }

  /** Ids are unique, so an update by id touches at most one row. */
  lemma {:induction false} CountIdAtMostOne(rows: seq<Entry>, id: int)
    requires IdsAscending(rows)
    ensures CountId(rows, id) <= 1
    ensures CountId(rows, id) == 1 <==> exists e :: e in rows && e.id == id
  {
    if rows != [] {
      CountIdAtMostOne(rows[1..], id);
      if rows[0].id == id {
        forall e | e in rows[1..] ensures e.id != id {
          var j :| 0 <= j < |rows[1..]| && rows[1..][j] == e;
          assert rows[0].id < rows[j + 1].id;
        }
      }
    }
  }

  /**
   * The `entries` table: its rows in insertion order and the next value
   * `AUTO_INCREMENT` hands out. Every statement takes `storeUp`, whether
   * the database answers at all.
   */
  class EntryTable {
    var rows: seq<Entry>
    var nextId: int

    /** What the schema guarantees: unique ascending ids below the counter, houses in `houses`, values that fit their columns. */
    ghost predicate Valid()
      reads this
    {
      nextId >= 1 && IdsAscending(rows) && AllFit(rows, nextId)
    }

    constructor(seed: seq<Entry>)
      requires IdsAscending(seed)
      requires forall e :: e in seed ==> e.id >= 1 && IsHouse(e.house) && IntMin <= e.points <= IntMax
      requires forall e :: e in seed ==> e.reason.Some? ==> |e.reason.value| <= ReasonMaxLength
      ensures Valid()
      ensures rows == seed
      ensures seed == [] ==> nextId == 1
      ensures seed != [] ==> nextId == seed[|seed| - 1].id + 1
    {
      rows := seed;
      if seed == [] {
        nextId := 1;
      } else {
        var last := seed[|seed| - 1].id;
        forall e | e in seed ensures e.id <= last {
          var i :| 0 <= i < |seed| && seed[i] == e;
          assert i == |seed| - 1 || seed[i].id < last;
        }
        nextId := last + 1;
      }
    }

    /**
     * `entry.save()`: `INSERT INTO entries (house, points, reason)` with the
     * default timestamp `now`. On success the new row is appended with the
     * next id, which is returned; on failure nothing changes.
     */
    method Save(house: string, points: int, reason: Option<string>, now: int, storeUp: bool)
      returns (r: Result<int, StoreError>)
      requires Valid()
      modifies this
      ensures Valid()
      ensures r.Failure? <==> InsertError(house, points, reason, storeUp).Some?
      ensures r.Failure? ==> r.error == InsertError(house, points, reason, storeUp).value
      ensures r.Failure? ==> rows == old(rows) && nextId == old(nextId)
      ensures r.Success? ==>
        && r.value == old(nextId)
        && rows == old(rows) + [Entry(r.value, house, points, reason, now)]
        && nextId == old(nextId) + 1
      ensures r.Success? ==> forall e :: e in old(rows) ==> e.id < r.value
    {
      match InsertError(house, points, reason, storeUp)
      case Some(err) =>
        r := Failure(err);
      case None =>
        AppendFits(rows, Entry(nextId, house, points, reason, now), nextId);
        r := Success(nextId);
        rows := rows + [Entry(nextId, house, points, reason, now)];
        nextId := nextId + 1;
    }

    /**
     * `deleteOldEntries(daysOld = 30)`: deletes every row older than
     * `daysOld` days before `now` and reports how many it deleted.
     */
    method DeleteOldEntries(daysOld: Option<int>, now: int, storeUp: bool) returns (r: Result<nat, StoreError>)
      requires Valid()
      modifies this
      ensures Valid()
      ensures nextId == old(nextId)
      ensures !storeUp ==> r == Failure(Unavailable) && rows == old(rows)
      ensures storeUp ==>
        var d := if daysOld.Some? then daysOld.value else DefaultRetentionDays;
        && rows == Retained(old(rows), d, now)
        && r == Success(|Purged(old(rows), d, now)|)
        && |rows| + r.value == |old(rows)|
    {
      if !storeUp {
        r := Failure(Unavailable);
        return;
      }
      var d := if daysOld.Some? then daysOld.value else DefaultRetentionDays;
      RetentionSplits(rows, d, now);
      FilterKeepsIdsAscending(rows, (e: Entry) => !Expired(e, d, now));
      r := Success(|Purged(rows, d, now)|);
      rows := Retained(rows, d, now);
    }

    /**
     * `UPDATE entries SET timestamp = ts WHERE id = ?`: only the row with
     * that id changes, and only its timestamp; the result is the number of
     * rows changed, at most one.
     */
    method SetTimestamp(id: int, ts: int, storeUp: bool) returns (r: Result<nat, StoreError>)
      requires Valid()
      modifies this
      ensures Valid()
      ensures nextId == old(nextId)
      ensures !storeUp ==> r == Failure(Unavailable) && rows == old(rows)
      ensures storeUp ==> rows == Restamp(old(rows), id, ts)
      ensures storeUp ==> r.Success? && r.value <= 1
      ensures storeUp ==> (r.value == 1 <==> exists e :: e in old(rows) && e.id == id)
    {
      if !storeUp {
        r := Failure(Unavailable);
        return;
      }
      CountIdAtMostOne(rows, id);
      RestampKeepsRows(rows, id, ts, nextId);
      r := Success(CountId(rows, id));
      rows := Restamp(rows, id, ts);
    }
  }

  /** The default of `deleteOldEntries`. */
  const DefaultRetentionDays: int := 30

  // ---------------------------------------------------------------------------
  // Random entries
  // ---------------------------------------------------------------------------

  /** The reasons `generateRandomEntry` draws from: eight rewards, then five penalties. */
  const Reasons: seq<string> := [
    "Outstanding classroom performance",
    "Helping a fellow student",
    "Exceptional spell work",
    "Leadership qualities",
    "Creative problem solving",
    "Defending a classmate",
    "Academic excellence",
    "Displaying house values",
    "Late to class",
    "Talking during lesson",
    "Incomplete homework",
    "Disrupting class",
    "Minor mischief"
  ]

  /** How many of `Reasons`, from the front, award points. */
  const RewardCount: nat := 8

  /** A value of `Math.random()`: at least 0 and below 1. */
  type Roll = x: real | 0.0 <= x < 1.0 witness 0.0

  /** The three `Math.random()` values `generateRandomEntry` consumes, in order. */
  datatype Draw = Draw(houseRoll: Roll, reasonRoll: Roll, pointsRoll: Roll)

  /** `Math.floor(roll * n)`: an index below `n`. */
  function Pick(roll: Roll, n: nat): (k: nat)
    requires n > 0
    ensures k < n
    ensures k as real <= roll * n as real < k as real + 1.0
  {
    var x := roll * n as real;
    assert x < n as real by {
      assert n as real - x == (1.0 - roll) * n as real;
    }
    x.Floor
  }

  /** A `new Entry(house, points, reason)` not yet saved. */
  datatype Draft = Draft(house: string, points: int, reason: Option<string>)

  /**
   * `Entry.generateRandomEntry()`: a house of the table, one of the thirteen
   * reasons, and points of 10..59 for one of the first eight reasons or of
   * -34..-5 for one of the last five, so never zero and of the reason's sign.
   */
  function GenerateRandomEntry(d: Draw): (e: Draft)
    ensures IsHouse(e.house)
    ensures exists k :: (0 <= k < |Reasons| && e.reason == Some(Reasons[k])
                         && (if k < RewardCount then 10 <= e.points <= 59 else -34 <= e.points <= -5))
    ensures e.points != 0
    ensures e.reason.Some? && |e.reason.value| <= ReasonMaxLength
  {
    var h := Pick(d.houseRoll, |Names|);
    var k := Pick(d.reasonRoll, |Reasons|);
    var points := if k < RewardCount then Pick(d.pointsRoll, 50) + 10 else -(Pick(d.pointsRoll, 30) + 5);
    Draft(Names[h], points, Some(Reasons[k]))
  }

  /** Every house, reason and amount the contract allows comes out of some draw. */
  lemma EveryDraftDrawn(h: nat, k: nat, m: nat)
    requires h < |Names| && k < |Reasons|
    requires if k < RewardCount then m < 50 else m < 30
    ensures var d := Draw(h as real / 4.0, k as real / 13.0,
                          m as real / (if k < RewardCount then 50.0 else 30.0));
      && GenerateRandomEntry(d) ==
         Draft(Names[h], if k < RewardCount then m + 10 else -(m + 5), Some(Reasons[k]))
  {
    var n: real := if k < RewardCount then 50.0 else 30.0;
    var d := Draw(h as real / 4.0, k as real / 13.0, m as real / n);
    assert (h as real / 4.0) * 4.0 == h as real;
    assert (k as real / 13.0) * 13.0 == k as real;
    assert (m as real / n) * n == m as real;
    assert Pick(d.houseRoll, |Names|) == h;
    assert Pick(d.reasonRoll, |Reasons|) == k;
  }
}
