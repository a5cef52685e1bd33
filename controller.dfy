/**
 * The request handlers of backend/controllers/leaderboardController.js.
 * Each handler maps its request fields to one response: a status code and
 * either a body or an error message. The queries are the functions of
 * `Ledger`. Whether the database answers is a parameter, and so is `now`.
 * Query-string fields are optional strings. Body fields are `JsValue`s.
 */
module Controller {
  import opened Wrappers
  import opened JsText
  import opened Houses
  import opened Ledger
  import opened DataGenerator

  /** What a successful response carries besides `success: true` and a timestamp. */
  datatype Body =
    | Board(timeWindow: string, standings: seq<Standing>)
    | Activity(entries: seq<Entry>)
    | Created(id: int, house: string, points: int, reason: Option<string>)
    | HouseData(house: string, stats: Stats)
    | GeneratorState(action: string, status: Status)
    | WindowEntries(timeWindow: string, entries: seq<Entry>, count: nat)

  /** A response: `res.json(...)` with a status, or `res.status(code).json({ success: false, error })`. */
  datatype Response = Reply(status: nat, body: Body) | Fail(status: nat, error: string)

  const LeaderboardFailed: string := "Failed to fetch leaderboard data"
  const ActivityFailed: string := "Failed to fetch recent activity"
  const FieldsRequired: string := "House and points are required"
  const InvalidHouse: string := "Invalid house name"
  const PointsOutOfRange: string := "Points must be between -100 and 100"
  const AddFailed: string := "Failed to add entry"
  const NoHouseData: string := "No data found for this house"
  const StatsFailed: string := "Failed to fetch house statistics"
  const InvalidAction: string := "Invalid action. Use: start, stop, generate, bulk, or test"
  const ControlFailed: string := "Failed to control data generator"
  const MinutesRequired: string := "Minutes parameter is required and must be a number"
  const WindowFailed: string := "Failed to fetch entries in time window"

  /** The bound on the points of a manual entry. */
  const PointsLimit: int := 100

  // ---------------------------------------------------------------------------
  // getLeaderboard
  // ---------------------------------------------------------------------------

  /** The `switch (timeWindow)` of `getLeaderboard`: three tokens name a window, anything else is all time. */
  function TimeWindowMinutes(timeWindow: Option<string>): (minutes: Option<int>)
    ensures minutes == Some(5) <==> timeWindow == Some("5min")
    ensures minutes == Some(60) <==> timeWindow == Some("1hour")
    ensures minutes == Some(1440) <==> timeWindow == Some("24hours")
    ensures minutes.None? <==> timeWindow !in {Some("5min"), Some("1hour"), Some("24hours")}
  {
    match timeWindow
    case Some("5min") => Some(5)
    case Some("1hour") => Some(60)
    case Some("24hours") => Some(60 * 24)
    case _ => None
  }

  /** `timeWindow || 'all'`: the token echoed back, `"all"` when it is missing or empty. */
  function WindowLabel(timeWindow: Option<string>): (shown: string)
    ensures shown == "all" <==> timeWindow.None? || timeWindow.value in {"", "all"}
    ensures timeWindow.Some? && timeWindow.value != "" ==> shown == timeWindow.value
  {
    match timeWindow
    case Some(t) => if t != "" then t else "all"
    case None => "all"
  }

  /**
   * `GET /leaderboard?timeWindow=`: the ranked table of the four houses over
   * the window the token names, or 500 when the database does not answer.
   */
  function GetLeaderboard(timeWindow: Option<string>, rows: seq<Entry>, now: int, storeUp: bool): (r: Response)
    ensures !storeUp ==> r == Fail(500, LeaderboardFailed)
    ensures storeUp ==> r.Reply? && r.status == 200 && r.body.Board? && r.body.timeWindow == WindowLabel(timeWindow)
    ensures storeUp ==> var board := r.body.standings;
      && |board| == 4
      && (forall i :: 0 <= i < |board| ==> board[i].rank == i + 1)
      && (forall i :: 0 <= i < |board| ==> Summarises(board[i], rows, TimeWindowMinutes(timeWindow), now))
      && (forall h :: IsHouse(h) ==> exists i :: 0 <= i < |board| && board[i].house == h)
      && (forall i, j :: 0 <= i < j < |board| ==>
            || board[i].totalPoints > board[j].totalPoints
            || (board[i].totalPoints == board[j].totalPoints && NameLt(board[i].house, board[j].house)))
  {
    if !storeUp then Fail(500, LeaderboardFailed)
    else
      NamesDistinct();
      Reply(200, Board(WindowLabel(timeWindow), Leaderboard(rows, TimeWindowMinutes(timeWindow), now)))
  }

  /** An unknown token, an empty one and a missing one all give the all-time table of `'all'`. */
  lemma UnknownWindowIsAllTime(t: string, rows: seq<Entry>, now: int)
    requires t !in {"5min", "1hour", "24hours"}
    ensures GetLeaderboard(Some(t), rows, now, true).body.standings == GetLeaderboard(None, rows, now, true).body.standings
    ensures GetLeaderboard(Some(t), rows, now, true).body.standings == GetLeaderboard(Some("all"), rows, now, true).body.standings
  {
    assert TimeWindowMinutes(Some(t)) == None;
  }

  // ---------------------------------------------------------------------------
  // getRecentActivity
  // ---------------------------------------------------------------------------

  /**
   * `parseInt(limit)` with `limit = 10` when the query has none. The model
   * parses the number 10 through its decimal rendering, as `parseInt` does.
   */
  function LimitValue(limit: Option<string>): (n: Num)
    ensures limit.None? ==> n == Int(10)
    ensures limit.Some? ==> n == ParseInt(limit.value)
  {
    match limit
    case None => IntToStringRoundTrip(10); ParseInt(IntToString(10))
    case Some(s) => ParseInt(s)
  }

  /**
   * `GET /recent?limit=`: at most `limit` joined rows, newest first, none
   * left out newer than one returned; 500 when the database does not
   * answer or the limit is not a non-negative integer.
   */
  function GetRecentActivity(limit: Option<string>, rows: seq<Entry>, storeUp: bool): (r: Response)
    ensures r.Fail? <==> !storeUp || LimitValue(limit).NaN? || LimitValue(limit).n < 0
    ensures r.Fail? ==> r == Fail(500, ActivityFailed)
    ensures r.Reply? ==> r.status == 200 && r.body.Activity?
    ensures r.Reply? ==> var got := r.body.entries;
      && |got| == Min(LimitValue(limit).n, |JoinedRows(rows)|)
      && NewestFirst(got)
      && multiset(got) <= multiset(JoinedRows(rows))
      && (forall e, x :: e in multiset(JoinedRows(rows)) - multiset(got) && x in got ==> e.timestamp <= x.timestamp)
  {
    if !storeUp then Fail(500, ActivityFailed)
    else match RecentActivity(rows, LimitValue(limit))
      case Success(es) => Reply(200, Activity(es))
      case Failure(_) => Fail(500, ActivityFailed)
  }

  /** A missing limit returns the ten newest rows, exactly as `limit=10` does. */
  lemma DefaultLimit(rows: seq<Entry>, storeUp: bool)
    ensures GetRecentActivity(None, rows, storeUp) == GetRecentActivity(Some("10"), rows, storeUp)
    ensures storeUp ==> |GetRecentActivity(None, rows, storeUp).body.entries| == Min(10, |JoinedRows(rows)|)
  {
    ReadsTen();
    SameLimit(None, Some("10"), rows, storeUp);
  }

  lemma ReadsSixteen()
    ensures ParseInt("16") == Int(16)
  {
    var s := "16";
    assert !IsSpace(s[0]);
    assert TrimStart(s) == s;
    assert Unsigned(s) == s && !HexPrefixed(s);
    assert s[1..][1..] == [];
    assert DigitRun(s) == 2;
    assert s[..2] == s;
    assert DigitsValue(s) == 16 by {
      assert s[..1] == "1" && "1"[..0] == "";
    }
  }

  /** `limit=0x10` is read as sixteen, so it answers exactly like `limit=16`. */
  lemma HexLimit(rows: seq<Entry>, storeUp: bool)
    ensures LimitValue(Some("0x10")) == Int(16)
    ensures GetRecentActivity(Some("0x10"), rows, storeUp) == GetRecentActivity(Some("16"), rows, storeUp)
  {
    HexSixteen();
    ReadsSixteen();
    SameLimit(Some("0x10"), Some("16"), rows, storeUp);
  }

  lemma SameLimit(a: Option<string>, b: Option<string>, rows: seq<Entry>, storeUp: bool)
    requires LimitValue(a) == LimitValue(b)
    ensures GetRecentActivity(a, rows, storeUp) == GetRecentActivity(b, rows, storeUp)
  {
  }

  /** `parseInt("10")` is 10. */
  lemma ReadsTen()
    ensures ParseInt("10") == Int(10)
  {
    var s := "10";
    assert !IsSpace(s[0]);
    assert TrimStart(s) == s;
    assert Unsigned(s) == s;
    assert s[1..][1..] == [];
    assert DigitRun(s) == 2;
    assert s[..2] == s;
    assert DigitsValue(s) == 10 by {
      assert s[..1] == "1" && "1"[..0] == "";
    }
  }

  // ---------------------------------------------------------------------------
  // addEntry
  // ---------------------------------------------------------------------------

  /** What the checks of `addEntry` decide: a 400 with its message, or the INSERT of a house and `parseInt(points)`. */
  datatype Decision = Reject(message: string) | Insert(house: string, points: Num)

  /** `validHouses.includes(house)`: strict equality with one of the four names. */
  predicate NamesHouse(house: JsValue) {
    house.Str? && IsHouse(house.s)
  }

  /**
   * The checks of `addEntry` as they are written: required fields, then the
   * house, then `points < -100 || points > 100` on the raw value, and only
   * then `parseInt(points)`. A comparison with NaN is false, so a value that
   * is not a number passes the range check.
   */
  function EntryCheckAsWritten(house: JsValue, points: JsValue): (d: Decision)
    ensures d == Reject(FieldsRequired) <==> !Truthy(house) || points == Undefined
    ensures d == Reject(InvalidHouse) <==> Truthy(house) && points != Undefined && !NamesHouse(house)
    ensures d == Reject(PointsOutOfRange) <==>
      && Truthy(house) && points != Undefined && NamesHouse(house)
      && (Below(ToNumber(points), -PointsLimit) || Above(ToNumber(points), PointsLimit))
    ensures d.Insert? ==> NamesHouse(house) && d.house == house.s && d.points == ParseIntValue(points)
  {
    if !Truthy(house) || points == Undefined then Reject(FieldsRequired)
    else if !NamesHouse(house) then Reject(InvalidHouse)
    else if Below(ToNumber(points), -PointsLimit) || Above(ToNumber(points), PointsLimit) then Reject(PointsOutOfRange)
    else Insert(house.s, ParseIntValue(points))
  }

  /** `Number("150abc")` is NaN and `parseInt("150abc")` is 150. */
  lemma ReadsLeadingDigits()
    ensures StringToNumber("150abc") == NaN
    ensures ParseInt("150abc") == Int(150)
  {
    var s := "150abc";
    assert s == "150" + "abc" && s[..3] == "150";
    TrimNothing(s);
    assert !IsDigit(s[3]);
    DigitRunStops("150", "abc");
    assert DigitsValue("150") == 150 by {
      assert "150"[..2] == "15" && "15"[..1] == "1" && "1"[..0] == "";
    }
  }

  /** `Number("abc")` and `parseInt("abc")` are both NaN. */
  lemma ReadsNoDigits()
    ensures StringToNumber("abc") == NaN
    ensures ParseInt("abc") == NaN
  {
    var s := "abc";
    assert !IsSpace(s[0]) && !IsSpace(s[2]);
    assert TrimStart(s) == s && TrimEnd(s) == s;
    assert Unsigned(s) == s;
    assert !IsDigit(s[0]);
  }

  /** Any string that `Number()` rejects passes the range check, and what `parseInt` reads from it is inserted. */
  lemma NonNumbersPass(house: JsValue, points: string)
    requires NamesHouse(house)
    requires StringToNumber(points).NaN?
    ensures EntryCheckAsWritten(house, Str(points)) == Insert(house.s, ParseInt(points))
  {
    HouseNamed(house.s);
    var v := Str(points);
    assert Truthy(house) && v != Undefined && ToNumber(v) == NaN;
    assert !Below(ToNumber(v), -PointsLimit) && !Above(ToNumber(v), PointsLimit);
    assert ParseIntValue(v) == ParseInt(points);
  }

  /**
   * The string `"150abc"` is not a number, so it passes the range check,
   * and `parseInt` then reads 150: an entry of 150 points is inserted.
   * The string `"abc"` passes as well and reaches the INSERT as NaN.
   */
  lemma RangeCheckBypassed()
    ensures EntryCheckAsWritten(Str("Gryffindor"), Str("150abc")) == Insert("Gryffindor", Int(150))
    ensures EntryCheckAsWritten(Str("Gryffindor"), Str("abc")) == Insert("Gryffindor", NaN)
  {
    assert NamesHouse(Str("Gryffindor")) by {
      assert Names[0] == "Gryffindor";
    }
    ReadsLeadingDigits();
    NonNumbersPass(Str("Gryffindor"), "150abc");
    ReadsNoDigits();
    NonNumbersPass(Str("Gryffindor"), "abc");
  }

  /**
   * The checks as evidently intended: the points are parsed first, and the
   * parsed value must be a number within -100..100.
   */
  function EntryCheck(house: JsValue, points: JsValue): (d: Decision)
    ensures d == Reject(FieldsRequired) <==> !Truthy(house) || points == Undefined
    ensures d == Reject(InvalidHouse) <==> Truthy(house) && points != Undefined && !NamesHouse(house)
    ensures d == Reject(PointsOutOfRange) <==>
      && Truthy(house) && points != Undefined && NamesHouse(house)
      && (ParseIntValue(points).NaN? || ParseIntValue(points).n < -PointsLimit || ParseIntValue(points).n > PointsLimit)
    ensures d.Insert? ==> NamesHouse(house) && d.house == house.s && d.points == ParseIntValue(points)
    ensures d.Insert? ==> d.points.Int? && -PointsLimit <= d.points.n <= PointsLimit
  {
    if !Truthy(house) || points == Undefined then Reject(FieldsRequired)
    else if !NamesHouse(house) then Reject(InvalidHouse)
    else match ParseIntValue(points)
      case NaN => Reject(PointsOutOfRange)
      case Int(n) => if n < -PointsLimit || n > PointsLimit then Reject(PointsOutOfRange) else Insert(house.s, Int(n))
  }

  /** For points sent as a JSON number the written and the intended checks decide alike. */
  lemma ChecksAgreeOnNumbers(house: JsValue, n: int)
    ensures EntryCheck(house, Number(n)) == EntryCheckAsWritten(house, Number(n))
  {
    IntToStringRoundTrip(n);
  }

  /** The intended check rejects the inputs that slip through the written one. */
  lemma EntryCheckRejectsBypass()
    ensures EntryCheck(Str("Gryffindor"), Str("150abc")) == Reject(PointsOutOfRange)
    ensures EntryCheck(Str("Gryffindor"), Str("abc")) == Reject(PointsOutOfRange)
  {
    RangeCheckBypassed();
  }

  /** `new Entry(house, points, reason)`: a missing reason defaults to null. */
  function ReasonValue(reason: JsValue): Option<string>
    requires reason.Undefined? || reason.Null? || reason.Str?
  {
    if reason.Str? then Some(reason.s) else None
  }

  /**
   * What `addEntry` answers, and the rows it leaves, once its checks have
   * decided `d`: a 400 with the check's message; a 500 when the INSERT is
   * refused, which includes points that `parseInt` could not read; otherwise
   * a 201 with the next id, and the row appended.
   */
  function EntryOutcome(d: Decision, reason: Option<string>, rows: seq<Entry>, nextId: int, now: int, storeUp: bool)
    : (o: (Response, seq<Entry>))
    ensures d.Reject? ==> o == (Fail(400, d.message), rows)
    ensures o.0.Reply? <==> d.Insert? && d.points.Int? && InsertError(d.house, d.points.n, reason, storeUp).None?
    ensures d.Insert? && o.0.Fail? ==> o == (Fail(500, AddFailed), rows)
    ensures o.0.Reply? ==>
      && o.0 == Reply(201, Created(nextId, d.house, d.points.n, reason))
      && o.1 == rows + [Entry(nextId, d.house, d.points.n, reason, now)]
  {
    match d
    case Reject(message) => (Fail(400, message), rows)
    case Insert(h, p) =>
      if p.NaN? || InsertError(h, p.n, reason, storeUp).Some? then (Fail(500, AddFailed), rows)
      else (Reply(201, Created(nextId, h, p.n, reason)), rows + [Entry(nextId, h, p.n, reason, now)])
  }

  /** Carries out what the checks decided: the INSERT, when there is one, and the response. */
  method SaveDecision(table: EntryTable, d: Decision, reason: Option<string>, now: int, storeUp: bool)
    returns (r: Response)
    requires table.Valid()
    modifies table
    ensures table.Valid()
    ensures (r, table.rows) == EntryOutcome(d, reason, old(table.rows), old(table.nextId), now, storeUp)
    ensures r.Reply? ==> forall e :: e in old(table.rows) ==> e.id < old(table.nextId)
  {
    match d {
    case Reject(message) =>
      r := Fail(400, message);
    case Insert(h, p) =>
      if p.NaN? {
        r := Fail(500, AddFailed);
        return;
      }
      var saved := table.Save(h, p.n, reason, now, storeUp);
      if saved.Failure? {
        r := Fail(500, AddFailed);
      } else {
        r := Reply(201, Created(saved.value, h, p.n, reason));
      }
    }
  }

  /**
   * `POST /entries` as written: the checks of `EntryCheckAsWritten`, then
   * the INSERT of `parseInt(points)`. A points text that `Number()` cannot
   * read passes the range check, so `"150abc"` is stored as 150 and `"abc"`
   * reaches the INSERT as NaN, which the database refuses.
   */
  method AddEntry(table: EntryTable, house: JsValue, points: JsValue, reason: JsValue, now: int, storeUp: bool)
    returns (r: Response)
    requires table.Valid()
    requires reason.Undefined? || reason.Null? || reason.Str?
    modifies table
    ensures table.Valid()
    ensures (r, table.rows) ==
      EntryOutcome(EntryCheckAsWritten(house, points), ReasonValue(reason), old(table.rows), old(table.nextId), now, storeUp)
  {
    r := SaveDecision(table, EntryCheckAsWritten(house, points), ReasonValue(reason), now, storeUp);
  }

  /** `POST /entries` with the intended check: only points within -100..100 are ever stored. */
  method AddEntryAsIntended(table: EntryTable, house: JsValue, points: JsValue, reason: JsValue, now: int, storeUp: bool)
    returns (r: Response)
    requires table.Valid()
    requires reason.Undefined? || reason.Null? || reason.Str?
    modifies table
    ensures table.Valid()
    ensures (r, table.rows) ==
      EntryOutcome(EntryCheck(house, points), ReasonValue(reason), old(table.rows), old(table.nextId), now, storeUp)
    ensures r.Reply? ==> r.body.Created? && -PointsLimit <= r.body.points <= PointsLimit
  {
    r := SaveDecision(table, EntryCheck(house, points), ReasonValue(reason), now, storeUp);
  }

  /** What the handler does once its checks let 150 points for Gryffindor through: it stores them. */
  lemma StoresOutOfRange(rows: seq<Entry>, nextId: int, now: int)
    ensures EntryOutcome(Insert("Gryffindor", Int(150)), None, rows, nextId, now, true) ==
      (Reply(201, Created(nextId, "Gryffindor", 150, None)), rows + [Entry(nextId, "Gryffindor", 150, None, now)])
  {
    assert IsHouse("Gryffindor") by {
      assert Names[0] == "Gryffindor";
    }
    assert InsertError("Gryffindor", 150, None, true) == None;
  }

  /**
   * The handler as written answers `"150abc"` with a 201 and stores 150
   * points, and answers `"abc"` with a 500.
   */
  lemma BypassOutcomes(rows: seq<Entry>, nextId: int, now: int)
    ensures EntryOutcome(EntryCheckAsWritten(Str("Gryffindor"), Str("150abc")), None, rows, nextId, now, true) ==
      (Reply(201, Created(nextId, "Gryffindor", 150, None)), rows + [Entry(nextId, "Gryffindor", 150, None, now)])
    ensures EntryOutcome(EntryCheckAsWritten(Str("Gryffindor"), Str("abc")), None, rows, nextId, now, true) ==
      (Fail(500, AddFailed), rows)
  {
    RangeCheckBypassed();
    StoresOutOfRange(rows, nextId, now);
  }

  /** The intended handler answers both inputs with a 400 and stores nothing. */
  lemma BypassOutcomesAsIntended(rows: seq<Entry>, nextId: int, now: int)
    ensures EntryOutcome(EntryCheck(Str("Gryffindor"), Str("150abc")), None, rows, nextId, now, true) ==
      (Fail(400, PointsOutOfRange), rows)
    ensures EntryOutcome(EntryCheck(Str("Gryffindor"), Str("abc")), None, rows, nextId, now, true) ==
      (Fail(400, PointsOutOfRange), rows)
  {
    EntryCheckRejectsBypass();
  }

  /** An entry the intended check lets through always fits the table, so only an unreachable database can fail it. */
  lemma AcceptedEntryFits(house: JsValue, points: JsValue, reason: Option<string>, storeUp: bool)
    requires EntryCheck(house, points).Insert?
    requires reason.Some? ==> |reason.value| <= ReasonMaxLength
    ensures var d := EntryCheck(house, points);
      InsertError(d.house, d.points.n, reason, storeUp) == if storeUp then None else Some(Unavailable)
  {
  }

  const InvalidEntryData: string := "Invalid entry data"

  /**
   * The check of the socket `add-entry` handler in backend/server.js, the
   * path the dashboard's form takes: a house of the four and a points field
   * that is present. There is no range check; `parseInt(points)` is saved.
   */
  function SocketEntryCheck(house: JsValue, points: JsValue): (d: Decision)
    ensures d.Reject? <==> !NamesHouse(house) || points == Undefined
    ensures d.Reject? ==> d.message == InvalidEntryData
    ensures d.Insert? ==> d.house == house.s && d.points == ParseIntValue(points)
  {
    if !NamesHouse(house) || points == Undefined then Reject(InvalidEntryData)
    else Insert(house.s, ParseIntValue(points))
  }

  /** Whatever `POST /entries` as written takes, the socket handler takes alike. */
  lemma SocketAcceptsWritten(house: JsValue, points: JsValue)
    requires EntryCheckAsWritten(house, points).Insert?
    ensures SocketEntryCheck(house, points) == EntryCheckAsWritten(house, points)
  {
  }

  /** Points text that `Number()` reads as an integer above 100 is refused as out of range. */
  lemma LargeNumbersRefused(house: JsValue, points: string)
    requires NamesHouse(house)
    requires StringToNumber(points).Int? && StringToNumber(points).n > PointsLimit
    ensures EntryCheckAsWritten(house, Str(points)) == Reject(PointsOutOfRange)
  {
    HouseNamed(house.s);
    assert Truthy(house) && Above(ToNumber(Str(points)), PointsLimit);
  }

  /** `POST /entries` reads the points "0x96" as 150 and refuses them as out of range. */
  lemma HexPointsRefused()
    ensures EntryCheckAsWritten(Str("Gryffindor"), Str("0x96")) == Reject(PointsOutOfRange)
  {
    assert NamesHouse(Str("Gryffindor")) by {
      assert Names[0] == "Gryffindor";
    }
    HexOneFifty();
    LargeNumbersRefused(Str("Gryffindor"), "0x96");
  }

  /** The socket handler stores the points "0x10" as 16. */
  lemma SocketReadsHex()
    ensures SocketEntryCheck(Str("Gryffindor"), Str("0x10")) == Insert("Gryffindor", Int(16))
  {
    assert NamesHouse(Str("Gryffindor")) by {
      assert Names[0] == "Gryffindor";
    }
    HexSixteen();
    assert ParseIntValue(Str("0x10")) == Int(16);
  }

  /** The socket handler takes 150 points, which `POST /entries` refuses as out of range. */
  lemma SocketSkipsRange()
    ensures SocketEntryCheck(Str("Gryffindor"), Number(150)) == Insert("Gryffindor", Int(150))
    ensures EntryCheckAsWritten(Str("Gryffindor"), Number(150)) == Reject(PointsOutOfRange)
  {
    var house := Str("Gryffindor");
    assert NamesHouse(house) by {
      assert Names[0] == "Gryffindor";
    }
    IntToStringRoundTrip(150);
    assert ParseIntValue(Number(150)) == Int(150);
    assert ToNumber(Number(150)) == Int(150);
    HouseNamed(house.s);
    assert Truthy(house);
  }

  // ---------------------------------------------------------------------------
  // getHouseStats
  // ---------------------------------------------------------------------------

  /**
   * `GET /houses/:house/stats`: 400 for a name outside the four, before any
   * query; 500 when the database does not answer; 404 when the house has no
   * entries; otherwise 200 with its statistics.
   */
  function GetHouseStats(house: string, rows: seq<Entry>, storeUp: bool): (r: Response)
    ensures !IsHouse(house) <==> r == Fail(400, InvalidHouse)
    ensures IsHouse(house) && !storeUp ==> r == Fail(500, StatsFailed)
    ensures r == Fail(404, NoHouseData) <==> IsHouse(house) && storeUp && forall e :: e in rows ==> e.house != house
    ensures r.Reply? <==> IsHouse(house) && storeUp && exists e :: e in rows && e.house == house
    ensures r.Reply? ==> r.status == 200 && r.body.HouseData? && r.body.house == house
    ensures r.Reply? ==> var s := r.body.stats;
      && s.totalEntries == |OfHouse(rows, house)|
      && s.totalPoints == TotalPoints(OfHouse(rows, house))
      && s.positivePoints == PositivePoints(OfHouse(rows, house))
      && s.negativePoints == NegativePoints(OfHouse(rows, house))
      && (forall e :: e in rows && e.house == house ==> s.minPoints <= e.points <= s.maxPoints)
      && (exists e :: e in rows && e.house == house && e.points == s.maxPoints)
      && (exists e :: e in rows && e.house == house && e.points == s.minPoints)
    ensures r.Reply? ==> HouseStats(rows, house) == Some(r.body.stats)
  {
    if !IsHouse(house) then Fail(400, InvalidHouse)
    else if !storeUp then Fail(500, StatsFailed)
    else match HouseStats(rows, house)
      case None => Fail(404, NoHouseData)
      case Some(s) => Reply(200, HouseData(house, s))
  }

  // ---------------------------------------------------------------------------
  // controlDataGenerator
  // ---------------------------------------------------------------------------

  /** The generator call an action asks for, with its arguments after the handler's defaults. */
  datatype GeneratorCall =
    | StartCall(intervalMinutes: JsValue)
    | StopCall
    | GenerateCall
    | BulkCall(count: JsValue)
    | TestCall
    | NoCall

  /**
   * The `switch (action)` of `controlDataGenerator`: `intervalMinutes || 1`
   * for `start`, `count || 10` for `bulk`, and no call for any other action.
   */
  function ControlDecision(action: JsValue, intervalMinutes: JsValue, count: JsValue): (c: GeneratorCall)
    ensures c.NoCall? <==> action !in {Str("start"), Str("stop"), Str("generate"), Str("bulk"), Str("test")}
    ensures action == Str("start") ==> c.StartCall? && Truthy(c.intervalMinutes)
    ensures action == Str("start") && !Truthy(intervalMinutes) ==> c == StartCall(Number(1))
    ensures action == Str("start") && Truthy(intervalMinutes) ==> c == StartCall(intervalMinutes)
    ensures action == Str("bulk") ==> c.BulkCall? && Truthy(c.count)
    ensures action == Str("bulk") && !Truthy(count) ==> c == BulkCall(Number(10))
    ensures action == Str("bulk") && Truthy(count) ==> c == BulkCall(count)
  {
    match action
    case Str("start") => StartCall(if Truthy(intervalMinutes) then intervalMinutes else Number(1))
    case Str("stop") => StopCall
    case Str("generate") => GenerateCall
    case Str("bulk") => BulkCall(if Truthy(count) then count else Number(10))
    case Str("test") => TestCall
    case _ => NoCall
  }

  /** A bulk request without a usable count makes ten attempts. */
  lemma BulkDefaultsToTen(count: JsValue)
    requires !Truthy(count)
    ensures BulkIterations(ControlDecision(Str("bulk"), Undefined, count).count) == 10
  {
  }

  /**
   * A start request without a usable interval asks for one "minute", which
   * `start` turns into a timer of 1 * 2 * 1000 ms: two seconds.
   */
  lemma StartDefaultsToTwoSeconds(intervalMinutes: JsValue)
    requires !Truthy(intervalMinutes)
    ensures EffectiveDelay(IntervalMs(ControlDecision(Str("start"), intervalMinutes, Undefined).intervalMinutes)) == 2000
  {
  }

  /**
   * `POST /generator`: performs the call `ControlDecision` names, then
   * answers 200 with the action and the generator status. An unknown action
   * is a 400 with no call. Only `generate` awaits something that can fail,
   * and its failure is a 500. The draws, clocks and database outcomes
   * of the entries are the parameters `a`, `attempts` and `runs`.
   */
  method ControlDataGenerator(g: Generator, action: JsValue, intervalMinutes: JsValue, count: JsValue,
                              a: Attempt, attempts: seq<Attempt>, runs: seq<FixtureRun>, now: int,
                              throwing: set<ListenerId>)
    returns (r: Response, calls: seq<Call>)
    requires g.Valid()
    requires ControlDecision(action, intervalMinutes, count).BulkCall? ==>
      |attempts| == BulkIterations(ControlDecision(action, intervalMinutes, count).count)
    requires |runs| == |Fixtures|
    modifies g, g.store, g.timers
    ensures g.Valid()
    ensures g.listeners == old(g.listeners)
    ensures ControlDecision(action, intervalMinutes, count).NoCall? ==>
      r == Fail(400, InvalidAction) && calls == [] && g.store.rows == old(g.store.rows)
      && g.isRunning == old(g.isRunning) && g.timers.active == old(g.timers.active)
    ensures ControlDecision(action, intervalMinutes, count).GenerateCall? && !a.storeUp ==>
      r == Fail(500, ControlFailed) && g.store.rows == old(g.store.rows) && calls == []
    ensures ControlDecision(action, intervalMinutes, count).GenerateCall? && a.storeUp ==>
      && g.store.rows == old(g.store.rows) + [SavedRow(a, old(g.store.nextId))]
      && calls == Notices(g.listeners, Announced(a, old(g.store.nextId)), throwing)
    ensures ControlDecision(action, intervalMinutes, count).BulkCall? ==>
      && g.store.rows == old(g.store.rows) + BulkRows(attempts, |attempts|, old(g.store.nextId))
      && calls == BulkCalls(BulkRecords(attempts, |attempts|, old(g.store.nextId)), g.listeners, throwing)
    ensures ControlDecision(action, intervalMinutes, count).TestCall? ==>
      g.store.rows == old(g.store.rows) + FixtureRows(runs, |runs|, old(g.store.nextId), now) && calls == []
    ensures ControlDecision(action, intervalMinutes, count).GenerateCall? ||
            ControlDecision(action, intervalMinutes, count).BulkCall? ||
            ControlDecision(action, intervalMinutes, count).TestCall? ==>
      g.isRunning == old(g.isRunning) && g.intervalId == old(g.intervalId) && g.timers.active == old(g.timers.active)
    ensures ControlDecision(action, intervalMinutes, count).StopCall? ==>
      && !g.isRunning && g.intervalId.None? && g.store.rows == old(g.store.rows) && calls == []
      && g.timers.active == if old(g.isRunning) then old(g.timers.active) - {old(g.intervalId).value} else old(g.timers.active)
    ensures ControlDecision(action, intervalMinutes, count).StartCall? ==> g.isRunning && g.intervalId.Some?
    ensures ControlDecision(action, intervalMinutes, count).StartCall? && old(g.isRunning) ==>
      && g.intervalId == old(g.intervalId) && g.timers.active == old(g.timers.active)
      && g.store.rows == old(g.store.rows) && calls == []
    ensures ControlDecision(action, intervalMinutes, count).StartCall? && !old(g.isRunning) ==>
      var interval := ControlDecision(action, intervalMinutes, count).intervalMinutes;
      && g.intervalId.value !in old(g.timers.active)
      && g.timers.active == old(g.timers.active)[g.intervalId.value := EffectiveDelay(IntervalMs(interval))]
      && g.store.rows == old(g.store.rows) + (if a.storeUp then [SavedRow(a, old(g.store.nextId))] else [])
      && calls == (if a.storeUp then Notices(g.listeners, Announced(a, old(g.store.nextId)), throwing) else [])
    ensures r.Reply? ==> r == Reply(200, GeneratorState(action.s, g.GetStatus()))
    ensures r.Reply? <==> (!ControlDecision(action, intervalMinutes, count).NoCall? &&
      !(ControlDecision(action, intervalMinutes, count).GenerateCall? && !a.storeUp))
  {
    calls := [];
    match ControlDecision(action, intervalMinutes, count) {
    case NoCall =>
      r := Fail(400, InvalidAction);
      return;
    case StartCall(interval) =>
      calls := g.Start(interval, a, throwing);
    case StopCall =>
      g.Stop();
    case GenerateCall =>
      var saved;
      saved, calls := g.GenerateAndSaveEntry(a, throwing);
      if saved.Failure? {
        r := Fail(500, ControlFailed);
        return;
      }
    case BulkCall(n) =>
      var records;
      records, calls := g.GenerateBulkEntries(n, attempts, throwing);
    case TestCall =>
      g.GenerateTestData(now, runs);
    }
    r := Reply(200, GeneratorState(action.s, g.GetStatus()));
  }

  // ---------------------------------------------------------------------------
  // getEntriesInTimeWindow
  // ---------------------------------------------------------------------------

  /**
   * `GET /entries?minutes=`: 400 when `minutes` is missing, empty or not a
   * number, before any query; otherwise the rows of the last
   * `parseInt(minutes)` minutes, newest first, with their count and the
   * label `"<minutes> minutes"`. The query fails (500) when the database does
   * not answer, or when `parseInt` finds no digit where `Number()` read 0
   * (a `minutes` of white space only).
   */
  function GetEntriesInTimeWindow(minutes: Option<string>, rows: seq<Entry>, now: int, storeUp: bool): (r: Response)
    ensures r == Fail(400, MinutesRequired) <==>
      minutes.None? || minutes.value == [] || StringToNumber(minutes.value).NaN?
    ensures r.Reply? ==> r.status == 200 && r.body.WindowEntries?
    ensures r.Reply? ==> minutes.Some? && StringToNumber(minutes.value).Int?
    ensures r.Reply? ==>
      var m := StringToNumber(minutes.value).n;
      && r.body.timeWindow == minutes.value + " minutes"
      && r.body.count == |r.body.entries|
      && NewestFirst(r.body.entries)
      && (forall e :: e in r.body.entries <==> e in rows && IsHouse(e.house) && e.timestamp >= now - 60 * m)
      && (forall e :: multiset(r.body.entries)[e] == if InTimeWindow(e, m, now) then multiset(rows)[e] else 0)
      && r.body.entries == EntriesInTimeWindow(rows, m, now)
    ensures r.Reply? <==>
      (storeUp && minutes.Some? && minutes.value != [] && StringToNumber(minutes.value).Int? && ParseInt(minutes.value).Int?)
  {
    match minutes
    case None => Fail(400, MinutesRequired)
    case Some(s) =>
      if s == [] || StringToNumber(s).NaN? then Fail(400, MinutesRequired)
      else if !storeUp then Fail(500, WindowFailed)
      else match ParseInt(s)
        case NaN => Fail(500, WindowFailed)
        case Int(m) =>
          StringToNumberAgrees(s);
          var es := EntriesInTimeWindow(rows, m, now);
          Reply(200, WindowEntries(s + " minutes", es, |es|))
  }
}
