/**
 * Laws that relate the queries of the `entries` table to one another and to
 * the statements that change it: widening the window, appending a row, the
 * rows the database is seeded with.
 */
module LedgerLaws {
  import opened Wrappers
  import opened Houses
  import opened Ledger

  /** Window `w1` lies inside window `w2`: `w2` does not filter, or both filter and `w2` reaches further back. */
  predicate Inside(w1: Option<int>, w2: Option<int>) {
    !FiltersWindow(w2) || (FiltersWindow(w1) && w1.value <= w2.value)
  }

  /** Widening the leaderboard window keeps every entry the narrower window counted. */
  lemma WiderWindowKeeps(rows: seq<Entry>, house: string, w1: Option<int>, w2: Option<int>, now: int)
    requires Inside(w1, w2)
    ensures multiset(HouseEntries(rows, house, w1, now)) <= multiset(HouseEntries(rows, house, w2, now))
    ensures |HouseEntries(rows, house, w1, now)| <= |HouseEntries(rows, house, w2, now)|
  {
    FilterWeaker(rows, (e: Entry) => Counts(e, house, w1, now), (e: Entry) => Counts(e, house, w2, now));
  }

  /** When a list holds every row of `wide` at least as new as one of its own rows, both have the same latest time. */
  lemma SameLast(narrow: seq<Entry>, wide: seq<Entry>)
    requires narrow != []
    requires forall x :: x in narrow ==> x in wide
    requires forall y, x :: y in wide && x in narrow && y.timestamp >= x.timestamp ==> y in narrow
    ensures LastActivity(narrow) == LastActivity(wide)
  {
    var t := LastActivity(narrow);
    var x :| x in narrow && x.timestamp == t.value;
    var u := LastActivity(wide);
    assert u.Some? by {
      assert x in wide;
    }
    var y :| y in wide && y.timestamp == u.value;
    assert x.timestamp <= u.value by {
      assert x in wide;
    }
    assert u.value <= t.value by {
      assert y in narrow;
    }
    assert t == Some(t.value) && u == Some(u.value) && t.value == u.value;
  }

  /**
   * As soon as the narrower of two windows holds an entry of a house, both
   * report the same last activity for it: the newest entry lies in every
   * window that holds any.
   */
  lemma WiderWindowSameLast(rows: seq<Entry>, house: string, w1: Option<int>, w2: Option<int>, now: int)
    requires Inside(w1, w2)
    requires HouseEntries(rows, house, w1, now) != []
    ensures LastActivity(HouseEntries(rows, house, w1, now)) == LastActivity(HouseEntries(rows, house, w2, now))
  {
    var narrow := HouseEntries(rows, house, w1, now);
    var wide := HouseEntries(rows, house, w2, now);
    forall y, x | y in wide && x in narrow && y.timestamp >= x.timestamp ensures y in narrow {
      assert Counts(y, house, w1, now);
    }
    SameLast(narrow, wide);
  }

  /**
   * A row just saved, stamped `now`, is counted by every window that
   * reaches back zero minutes or more: it adds its points and one entry to
   * its own house and leaves every other house as it was.
   */
  lemma AppendCounts(rows: seq<Entry>, e: Entry, house: string, w: Option<int>, now: int)
    requires e.timestamp == now
    requires FiltersWindow(w) ==> w.value >= 0
    ensures TotalPoints(HouseEntries(rows + [e], house, w, now)) ==
      TotalPoints(HouseEntries(rows, house, w, now)) + (if e.house == house then e.points else 0)
    ensures |HouseEntries(rows + [e], house, w, now)| ==
      |HouseEntries(rows, house, w, now)| + (if e.house == house then 1 else 0)
  {
    var p := (x: Entry) => Counts(x, house, w, now);
    FilterAppend(rows, [e], p);
    TotalPointsAppend(Filter(rows, p), Filter([e], p));
    assert Filter([e], p) == (if p(e) then [e] else []) + Filter([], p);
  }

  /** A row just saved shows up among the entries of every window of zero minutes or more. */
  lemma AppendInWindow(rows: seq<Entry>, e: Entry, minutes: int, now: int)
    requires e.timestamp == now && IsHouse(e.house) && minutes >= 0
    ensures e in EntriesInTimeWindow(rows + [e], minutes, now)
  {
  }

  /** The six rows the database is seeded with, ids 1 to 6, stamped relative to `now`. */
  function SeedRows(now: int): seq<Entry> {
    [ Entry(1, "Gryffindor", 50, Some("Excellent Transfiguration work"), now - 2 * 3600),
      Entry(2, "Slytherin", 30, Some("Outstanding Potions brewing"), now - 3600),
      Entry(3, "Ravenclaw", 40, Some("Brilliant Defense Against Dark Arts"), now - 30 * 60),
      Entry(4, "Hufflepuff", 35, Some("Exceptional Herbology knowledge"), now - 15 * 60),
      Entry(5, "Gryffindor", -20, Some("Breaking curfew"), now - 10 * 60),
      Entry(6, "Slytherin", 25, Some("Creative problem solving"), now - 5 * 60) ]
  }

  /** The all-time points of `house`, added up row by row. */
  function PointsOf(rows: seq<Entry>, house: string): int {
    if rows == [] then 0 else (if rows[0].house == house then rows[0].points else 0) + PointsOf(rows[1..], house)
  }

  /** The all-time total of the leaderboard is the row-by-row sum of the house's points. */
  lemma {:induction false} AllTimeTotal(rows: seq<Entry>, house: string, now: int)
    ensures TotalPoints(HouseEntries(rows, house, None, now)) == PointsOf(rows, house)
  {
    if rows != [] {
      AllTimeTotal(rows[1..], house, now);
      var p := (e: Entry) => Counts(e, house, None, now);
      TotalPointsAppend(if p(rows[0]) then [rows[0]] else [], Filter(rows[1..], p));
    }
  }

  lemma PointsOfStep(rows: seq<Entry>, k: nat, house: string)
    requires k < |rows|
    ensures PointsOf(rows[k..], house) == (if rows[k].house == house then rows[k].points else 0) + PointsOf(rows[k + 1..], house)
  {
    assert rows[k..][1..] == rows[k + 1..];
  }

  /** The all-time total of `house` over the seeded rows, one term per row. */
  lemma SeedHouse(now: int, house: string)
    ensures TotalPoints(HouseEntries(SeedRows(now), house, None, now)) ==
      (if house == "Gryffindor" then 50 - 20 else 0)
      + (if house == "Slytherin" then 30 + 25 else 0)
      + (if house == "Ravenclaw" then 40 else 0)
      + (if house == "Hufflepuff" then 35 else 0)
  {
    var s := SeedRows(now);
    AllTimeTotal(s, house, now);
    assert s[0..] == s && s[6..] == [];
    PointsOfStep(s, 0, house);
    PointsOfStep(s, 1, house);
    PointsOfStep(s, 2, house);
    PointsOfStep(s, 3, house);
    PointsOfStep(s, 4, house);
    PointsOfStep(s, 5, house);
  }

  /** Over the seeded rows the all-time totals are Gryffindor 30, Slytherin 55, Ravenclaw 40, Hufflepuff 35. */
  lemma SeedTotals(now: int)
    ensures TotalPoints(HouseEntries(SeedRows(now), "Gryffindor", None, now)) == 30
    ensures TotalPoints(HouseEntries(SeedRows(now), "Slytherin", None, now)) == 55
    ensures TotalPoints(HouseEntries(SeedRows(now), "Ravenclaw", None, now)) == 40
    ensures TotalPoints(HouseEntries(SeedRows(now), "Hufflepuff", None, now)) == 35
  {
    NamesDistinct();
    assert Names == ["Gryffindor", "Slytherin", "Ravenclaw", "Hufflepuff"];
    SeedHouse(now, "Gryffindor");
    SeedHouse(now, "Slytherin");
    SeedHouse(now, "Ravenclaw");
    SeedHouse(now, "Hufflepuff");
  }

  /** The all-time total of each house over the seeded rows. */
  function SeedTotal(house: string): int {
    if house == "Slytherin" then 55
    else if house == "Ravenclaw" then 40
    else if house == "Hufflepuff" then 35
    else 30
  }

  /** Four rows in strict leaderboard order whose totals are the seeded ones can only come in one order. */
  lemma SeedOrder(r: seq<Standing>)
    requires |r| == 4
    requires forall i :: 0 <= i < 4 ==> r[i].house in Names && r[i].totalPoints == SeedTotal(r[i].house)
    requires forall i, j :: 0 <= i < j < 4 ==>
      || r[i].totalPoints > r[j].totalPoints
      || (r[i].totalPoints == r[j].totalPoints && NameLt(r[i].house, r[j].house))
    ensures [r[0].house, r[1].house, r[2].house, r[3].house] == ["Slytherin", "Ravenclaw", "Hufflepuff", "Gryffindor"]
    ensures [r[0].totalPoints, r[1].totalPoints, r[2].totalPoints, r[3].totalPoints] == [55, 40, 35, 30]
  {
    NamesDistinct();
    assert Names == ["Gryffindor", "Slytherin", "Ravenclaw", "Hufflepuff"];
  }

  /** Any table whose all-time totals are the seeded ones ranks the houses in the seeded order. */
  lemma RankedLikeSeed(rows: seq<Entry>, now: int)
    requires forall h :: h in Names ==> TotalPoints(HouseEntries(rows, h, None, now)) == SeedTotal(h)
    ensures var r := Leaderboard(rows, None, now);
      && [r[0].house, r[1].house, r[2].house, r[3].house] == ["Slytherin", "Ravenclaw", "Hufflepuff", "Gryffindor"]
      && [r[0].totalPoints, r[1].totalPoints, r[2].totalPoints, r[3].totalPoints] == [55, 40, 35, 30]
      && [r[0].rank, r[1].rank, r[2].rank, r[3].rank] == [1, 2, 3, 4]
  {
    var r := Leaderboard(rows, None, now);
    NamesDistinct();
    forall i | 0 <= i < 4 ensures r[i].house in Names && r[i].totalPoints == SeedTotal(r[i].house) {
      assert Summarises(r[i], rows, None, now);
    }
    SeedOrder(r);
  }

  /**
   * The seeded leaderboard, all time: Slytherin 55, Ravenclaw 40,
   * Hufflepuff 35, Gryffindor 30, ranked 1 to 4.
   */
  lemma SeedLeaderboard(now: int)
    ensures var r := Leaderboard(SeedRows(now), None, now);
      && [r[0].house, r[1].house, r[2].house, r[3].house] == ["Slytherin", "Ravenclaw", "Hufflepuff", "Gryffindor"]
      && [r[0].totalPoints, r[1].totalPoints, r[2].totalPoints, r[3].totalPoints] == [55, 40, 35, 30]
      && [r[0].rank, r[1].rank, r[2].rank, r[3].rank] == [1, 2, 3, 4]
  {
    SeedTotals(now);
    NamesDistinct();
    assert Names == ["Gryffindor", "Slytherin", "Ravenclaw", "Hufflepuff"];
    RankedLikeSeed(SeedRows(now), now);
  }
}
