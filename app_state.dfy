/**
 * The dashboard state of frontend/src/App.js and the socket events that
 * change it: the connection flag, the live-updates switch, the chosen time
 * window, the leaderboard and its update time, the activity list, the
 * generator status, and the messages sent over the socket.
 */
module App {
  import opened Wrappers
  import opened Houses
  import opened Ledger
  import opened DataGenerator
  import opened AdminControls

  /** One item of the activity list, as the server sends it. */
  datatype Activity = Activity(id: int, house: string, points: int, reason: Option<string>, timestamp: int)

  /** What `fetch('/api/activity?limit=15')` gives: a parsed body, or a failure of the request. */
  datatype FetchResult = Fetched(success: bool, data: seq<Activity>) | FetchFailed

  /** A message emitted on the socket. */
  datatype Emitted =
    | RequestLeaderboard(timeWindow: string)
    | AddEntryEvent(entry: Submission)
    | ControlGeneratorEvent(request: ControlRequest)

  /** All of the dashboard state at once. */
  datatype Snapshot = Snapshot(
    connected: bool, liveUpdates: bool, timeWindow: string, leaderboard: seq<Standing>,
    lastUpdated: Option<int>, activity: seq<Activity>, generatorStatus: Option<Status>, sent: seq<Emitted>)

  /** How many items the activity list keeps. */
  const ActivityCapacity: nat := 20

  /** `[data, ...prev.slice(0, 19)]`: the new item first, then the newest 19 of the others in their order. */
  function PrependActivity(item: Activity, prev: seq<Activity>): (r: seq<Activity>)
    ensures |r| == Min(|prev| + 1, ActivityCapacity)
    ensures r[0] == item
    ensures r[1..] == prev[..|r| - 1]
  {
    [item] + prev[..Min(|prev|, ActivityCapacity - 1)]
  }

  /** The first `n` items of `s`, or all of them when there are fewer. */
  function Take<T>(s: seq<T>, n: nat): (r: seq<T>)
    ensures |r| == Min(|s|, n)
  {
    s[..Min(|s|, n)]
  }

  function Reversed<T>(s: seq<T>): (r: seq<T>)
    ensures |r| == |s|
    ensures forall i :: 0 <= i < |s| ==> r[i] == s[|s| - 1 - i]
  {
    if s == [] then [] else Reversed(s[1..]) + [s[0]]
  }

  /** The activity list after the `new-entry` events `items`, in the order they arrive. */
  function AfterNewEntries(prev: seq<Activity>, items: seq<Activity>): seq<Activity>
    decreases |items|
  {
    if items == [] then prev else AfterNewEntries(PrependActivity(items[0], prev), items[1..])
  }

  lemma TakeOfTake<T>(a: seq<T>, b: seq<T>, n: nat)
    ensures Take(a + Take(b, n), n) == Take(a + b, n)
  {
    var l := Take(a + b, n);
    var r := Take(a + Take(b, n), n);
    assert |l| == |r|;
    forall i | 0 <= i < |l| ensures l[i] == r[i] {
      if i >= |a| {
        assert (a + b)[i] == b[i - |a|];
        assert (a + Take(b, n))[i] == Take(b, n)[i - |a|];
      }
    }
  }

  /**
   * After any run of `new-entry` events the list holds the newest items,
   * newest first, the earlier list behind them, cut to twenty.
   */
  lemma {:induction false} NewEntriesKeepNewest(prev: seq<Activity>, items: seq<Activity>)
    requires |prev| <= ActivityCapacity
    ensures AfterNewEntries(prev, items) == Take(Reversed(items) + prev, ActivityCapacity)
    decreases |items|
  {
    if items == [] {
      assert Reversed(items) + prev == prev;
    } else {
      var p := PrependActivity(items[0], prev);
      NewEntriesKeepNewest(p, items[1..]);
      assert p == Take([items[0]] + prev, ActivityCapacity);
      TakeOfTake(Reversed(items[1..]), [items[0]] + prev, ActivityCapacity);
      assert Reversed(items) == Reversed(items[1..]) + [items[0]];
      assert Reversed(items[1..]) + ([items[0]] + prev) == Reversed(items) + prev;
    }
  }

  /** `getHouseColor(house)`: a fixed colour per house, `'#333'` for anything else. */
  function GetHouseColor(house: string): (c: string)
    ensures IsHouse(house) ==> c == ColorOf(house)
    ensures !IsHouse(house) ==> c == "#333"
  {
    var colors := map["Gryffindor" := "#740001", "Slytherin" := "#1a472a",
                       "Ravenclaw" := "#0e1a40", "Hufflepuff" := "#ecb939"];
    if house in colors then colors[house] else "#333"
  }

  /** The dashboard agrees with the `houses` table on every house's colour. */
  lemma HouseColorsAgree()
    ensures forall k :: 0 <= k < |Names| ==> GetHouseColor(Names[k]) == Colors[k]
  {
    NamesDistinct();
  }

  class AppState {
    var connected: bool
    var liveUpdates: bool
    var timeWindow: string
    var leaderboard: seq<Standing>
    var lastUpdated: Option<int>
    var activity: seq<Activity>
    var generatorStatus: Option<Status>
    var sent: seq<Emitted>

    function View(): Snapshot
      reads this
    {
      Snapshot(connected, liveUpdates, timeWindow, leaderboard, lastUpdated, activity, generatorStatus, sent)
    }

    /** The initial `useState` values; `generatorStatus` starts as `{ isRunning: false }`, shown here as none. */
    constructor()
      ensures View() == Snapshot(false, true, "all", [], None, [], None, [])
    {
      connected := false;
      liveUpdates := true;
      timeWindow := "all";
      leaderboard := [];
      lastUpdated := None;
      activity := [];
      generatorStatus := None;
      sent := [];
    }

    /**
     * `connect`: the flag is set, and when it was clear the effect on
     * `isConnected` loads the activity list.
     */
    method OnConnect(fetch: FetchResult)
      modifies this
      ensures old(connected) ==> View() == old(View())
      ensures !old(connected) ==> View() == old(View()).(connected := true, activity := Loaded(old(activity), fetch))
    {
      if !connected {
        connected := true;
        FetchActivityData(fetch);
      }
    }

    /** `disconnect`. */
    method OnDisconnect()
      modifies this
      ensures View() == old(View()).(connected := false)
    {
      connected := false;
    }

    /** `leaderboard-update`: replaces the table and stamps the time, only while live updates are on. */
    method OnLeaderboardUpdate(data: seq<Standing>, now: int)
      modifies this
      ensures liveUpdates ==> View() == old(View()).(leaderboard := data, lastUpdated := Some(now))
      ensures !liveUpdates ==> View() == old(View())
    {
      if liveUpdates {
        leaderboard := data;
        lastUpdated := Some(now);
      }
    }

    /** `new-entry`: the item goes first in the list, which keeps at most twenty. */
    method OnNewEntry(item: Activity)
      modifies this
      ensures View() == old(View()).(activity := PrependActivity(item, old(activity)))
    {
      activity := PrependActivity(item, activity);
    }

    /** `generator-status`: the reported status replaces the old one whole. */
    method OnGeneratorStatus(status: Status)
      modifies this
      ensures View() == old(View()).(generatorStatus := Some(status))
    {
      generatorStatus := Some(status);
    }

    /** `fetchActivityData()`: only a body with `success` replaces the list. */
    method FetchActivityData(fetch: FetchResult)
      modifies this
      ensures View() == old(View()).(activity := Loaded(old(activity), fetch))
    {
      if fetch.Fetched? && fetch.success {
        activity := fetch.data;
      }
    }

    /** `handleTimeWindowChange(timeWindow)`: always chosen, requested only while connected. */
    method HandleTimeWindowChange(tw: string)
      modifies this
      ensures connected ==> View() == old(View()).(timeWindow := tw, sent := old(sent) + [RequestLeaderboard(tw)])
      ensures !connected ==> View() == old(View()).(timeWindow := tw)
    {
      timeWindow := tw;
      if connected {
        sent := sent + [RequestLeaderboard(tw)];
      }
    }

    /** `toggleLiveUpdates()`. */
    method ToggleLiveUpdates()
      modifies this
      ensures View() == old(View()).(liveUpdates := !old(liveUpdates))
    {
      liveUpdates := !liveUpdates;
    }

    /** `handleAddEntry(entryData)`: sent only while connected. */
    method HandleAddEntry(entry: Submission)
      modifies this
      ensures connected ==> View() == old(View()).(sent := old(sent) + [AddEntryEvent(entry)])
      ensures !connected ==> View() == old(View())
    {
      if connected {
        sent := sent + [AddEntryEvent(entry)];
      }
    }

    /** `handleControlGenerator(action, options)`: `{ action, ...options }`, sent only while connected. */
    method HandleControlGenerator(request: ControlRequest)
      modifies this
      ensures connected ==> View() == old(View()).(sent := old(sent) + [ControlGeneratorEvent(request)])
      ensures !connected ==> View() == old(View())
    {
      if connected {
        sent := sent + [ControlGeneratorEvent(request)];
      }
    }
  }

  /** The list after a fetch: the body's data when it reports success, the old list otherwise. */
  function Loaded(prev: seq<Activity>, fetch: FetchResult): (r: seq<Activity>)
    ensures fetch.Fetched? && fetch.success ==> r == fetch.data
    ensures !(fetch.Fetched? && fetch.success) ==> r == prev
  {
    if fetch.Fetched? && fetch.success then fetch.data else prev
  }
}
