/**
 * Content-length statistics kept in preferences: two running totals, and ten
 * daily lists, each a window of the last 60 calendar days whose last entry is
 * the current day. An update adds the response's lengths to the totals and to
 * the daily lists its proxy state and request type route it to, after moving
 * every list forward to the current day.
 *
 * Time is local time in whole seconds; a calendar day is `t / 86400`.
 */
module DataReductionProxyMetrics {

  const NumDaysInHistory: nat := 60
  const SecondsPerDay: int := 86400

  datatype ProxyRequestType = ViaDataReductionProxy | Https | ShortBypass | LongBypass | UnknownType

  /** The ten daily list preferences. */
  datatype DailyList =
    | HttpOriginal                  // every response, original length
    | HttpReceived                  // every response, received length
    | OriginalWithProxyEnabled      // proxy enabled, original length
    | ReceivedWithProxyEnabled      // proxy enabled, received length
    | HttpsWithProxyEnabled         // proxy enabled, HTTPS request
    | ShortBypassWithProxyEnabled   // proxy enabled, short bypass
    | LongBypassWithProxyEnabled    // proxy enabled, long bypass
    | UnknownWithProxyEnabled       // proxy enabled, unknown type
    | OriginalViaProxy              // fetched via the proxy, original length
    | ReceivedViaProxy              // fetched via the proxy, received length

  const AllDailyLists: seq<DailyList> := [
    HttpOriginal, HttpReceived, OriginalWithProxyEnabled, ReceivedWithProxyEnabled,
    HttpsWithProxyEnabled, ShortBypassWithProxyEnabled, LongBypassWithProxyEnabled,
    UnknownWithProxyEnabled, OriginalViaProxy, ReceivedViaProxy]

  /** The position of a list in AllDailyLists. */
  function ListIndex(l: DailyList): (i: nat)
    ensures i < |AllDailyLists| && AllDailyLists[i] == l
  {
    match l
    case HttpOriginal => 0
    case HttpReceived => 1
    case OriginalWithProxyEnabled => 2
    case ReceivedWithProxyEnabled => 3
    case HttpsWithProxyEnabled => 4
    case ShortBypassWithProxyEnabled => 5
    case LongBypassWithProxyEnabled => 6
    case UnknownWithProxyEnabled => 7
    case OriginalViaProxy => 8
    case ReceivedViaProxy => 9
  }

  lemma ListIndexOf(k: nat)
    requires k < |AllDailyLists|
    ensures ListIndex(AllDailyLists[k]) == k
  {
  }

  /** The calendar day of a local time, as its local midnight identifies it. */
  function LocalDay(t: int): int {
    t / SecondsPerDay
  }

  // ---------------------------------------------------------------------------
  // Routing

  /** Whether an update with this proxy state and request type adds to list `l`. */
  predicate Routed(l: DailyList, proxyEnabled: bool, requestType: ProxyRequestType) {
    match l
    case HttpOriginal => true
    case HttpReceived => true
    case OriginalWithProxyEnabled => proxyEnabled
    case ReceivedWithProxyEnabled => proxyEnabled
    case HttpsWithProxyEnabled => proxyEnabled && requestType == Https
    case ShortBypassWithProxyEnabled => proxyEnabled && requestType == ShortBypass
    case LongBypassWithProxyEnabled => proxyEnabled && requestType == LongBypass
    case UnknownWithProxyEnabled => proxyEnabled && requestType == UnknownType
    case OriginalViaProxy => proxyEnabled && requestType == ViaDataReductionProxy
    case ReceivedViaProxy => proxyEnabled && requestType == ViaDataReductionProxy
  }

  /** The length a routed update adds: original lengths to the "original" lists, received lengths to the rest. */
  function Amount(l: DailyList, received: int, original: int): int {
    if l == HttpOriginal || l == OriginalWithProxyEnabled || l == OriginalViaProxy then original else received
  }

  function Increment(l: DailyList, received: int, original: int, proxyEnabled: bool,
                     requestType: ProxyRequestType): int
  {
    if Routed(l, proxyEnabled, requestType) then Amount(l, received, original) else 0
  }

  /** The lists kept for one request type alone, beyond the totals and the proxy-enabled totals. */
  function TypeLists(requestType: ProxyRequestType): (ls: set<DailyList>)
    ensures |ls| == if requestType == ViaDataReductionProxy then 2 else 1
  {
    match requestType
    case ViaDataReductionProxy => {OriginalViaProxy, ReceivedViaProxy}
    case Https => {HttpsWithProxyEnabled}
    case ShortBypass => {ShortBypassWithProxyEnabled}
    case LongBypass => {LongBypassWithProxyEnabled}
    case UnknownType => {UnknownWithProxyEnabled}
  }

  /**
   * With the proxy off only the two total lists receive an update. With it on,
   * the totals and the proxy-enabled lists do, plus exactly the lists of the
   * request type: both via-proxy lists for VIA_DATA_REDUCTION_PROXY, one
   * per-type list otherwise.
   */
  lemma RoutingTable(l: DailyList, proxyEnabled: bool, requestType: ProxyRequestType)
    ensures Routed(l, proxyEnabled, requestType) <==>
      l == HttpOriginal || l == HttpReceived ||
      (proxyEnabled && (l == OriginalWithProxyEnabled || l == ReceivedWithProxyEnabled || l in TypeLists(requestType)))
  {
  }

  // ---------------------------------------------------------------------------
  // One daily list

  function Zeros(n: nat): (z: seq<int>)
    ensures |z| == n && forall i :: 0 <= i < n ==> z[i] == 0
  {
    seq(n, _ => 0)
  }

  /** Keeps exactly the window length: the oldest entries go from the front, missing days are zero-filled at the back. */
  function Window(s: seq<int>): (w: seq<int>)
    ensures |w| == NumDaysInHistory
  {
    if |s| > NumDaysInHistory then s[|s| - NumDaysInHistory..]
    else s + Zeros(NumDaysInHistory - |s|)
  }

  /**
   * Moves a list to a day `days` after its last update: one day back counts as
   * the same day, more than one day back clears it; otherwise one zero per
   * elapsed day (at most the window) is appended and the window kept.
   */
  function DateChange(s: seq<int>, days: int): (r: seq<int>)
    ensures |r| == NumDaysInHistory
  {
    var (start, elapsed) :=
      if days == -1 then (s, 0)
      else if days < -1 then ([], NumDaysInHistory as int)
      else (s, days);
    Window(start + Zeros(if elapsed < NumDaysInHistory then elapsed else NumDaysInHistory))
  }

  function AddToLast(s: seq<int>, v: int): (r: seq<int>)
    requires |s| == NumDaysInHistory
  {
    s[..NumDaysInHistory - 1] + [s[NumDaysInHistory - 1] + v]
  }

  /** One list's whole update: keep the window, move to the current day when it changed, add to the last entry. */
  function DailyStep(s: seq<int>, days: int, v: int): seq<int> {
    var w := Window(s);
    AddToLast(if days != 0 then DateChange(w, days) else w, v)
  }

  /** After any update a list holds exactly the window, whatever it held before (an empty list included). */
  lemma StepKeepsWindow(s: seq<int>, days: int, v: int)
    ensures |DailyStep(s, days, v)| == NumDaysInHistory
    ensures s == [] ==> DailyStep(s, days, v) == Zeros(NumDaysInHistory - 1) + [v]
  {
  }

  /** Updates on the same day, or one day back, add into the last entry and change nothing else. */
  lemma SameDayAddsToLast(s: seq<int>, days: int, v: int)
    requires |s| == NumDaysInHistory
    requires days == 0 || days == -1
    ensures DailyStep(s, days, v) == s[..NumDaysInHistory - 1] + [s[NumDaysInHistory - 1] + v]
  {
    assert Window(s) == s;
    assert Zeros(0) == [];
    assert s + [] == s;
  }

  /** A move `days` forward, within the window, shifts left by `days`, zero-fills the skipped days and puts the value last. */
  lemma ForwardShifts(s: seq<int>, days: int, v: int)
    requires |s| == NumDaysInHistory
    requires 0 < days < NumDaysInHistory
    ensures var r := DailyStep(s, days, v);
      && |r| == NumDaysInHistory
      && (forall i :: 0 <= i < NumDaysInHistory - days ==> r[i] == s[i + days])
      && (forall i :: NumDaysInHistory - days <= i < NumDaysInHistory - 1 ==> r[i] == 0)
      && r[NumDaysInHistory - 1] == v
  {
    assert Window(s) == s;
    var moved := DateChange(s, days);
    assert moved == (s + Zeros(days))[days..];
  }

  /** A move of at least the whole window forward, or of two days or more back, leaves only the new value. */
  lemma FarMoveLeavesOnlyNewValue(s: seq<int>, days: int, v: int)
    requires days >= NumDaysInHistory || days < -1
    ensures DailyStep(s, days, v) == Zeros(NumDaysInHistory - 1) + [v]
  {
    var w := Window(s);
    var moved := DateChange(w, days);
    if days < -1 {
      assert moved == Window([] + Zeros(NumDaysInHistory));
      assert [] + Zeros(NumDaysInHistory) == Zeros(NumDaysInHistory);
    } else {
      assert moved == (w + Zeros(NumDaysInHistory))[NumDaysInHistory..];
    }
    assert moved == Zeros(NumDaysInHistory);
  }

  /** Going back one day keeps adding to the last entry; the next forward day then appends after it. */
  lemma {:induction false} BackThenForwardOneDay(s: seq<int>, v1: int, v2: int)
    requires |s| == NumDaysInHistory
    ensures DailyStep(DailyStep(s, -1, v1), 1, v2)
         == s[1..NumDaysInHistory - 1] + [s[NumDaysInHistory - 1] + v1, v2]
  {
    SameDayAddsToLast(s, -1, v1);
    var t := DailyStep(s, -1, v1);
    ForwardShifts(t, 1, v2);
    var r := DailyStep(t, 1, v2);
    var expected := s[1..NumDaysInHistory - 1] + [s[NumDaysInHistory - 1] + v1, v2];
    assert forall i :: 0 <= i < NumDaysInHistory ==> r[i] == expected[i];
  }

  /**
   * Day boundaries are calendar days, not 24 hours elapsed: less than a day
   * later is the same day exactly when midnight is not crossed, and the next
   * day otherwise.
   */
  lemma CalendarDayNotElapsedTime(t: int, d: int)
    requires 0 <= d < SecondsPerDay
    ensures LocalDay(t + d) == LocalDay(t) <==> t % SecondsPerDay + d < SecondsPerDay
    ensures LocalDay(t + d) == LocalDay(t) + 1 <==> t % SecondsPerDay + d >= SecondsPerDay
  {
    var q, r := t / SecondsPerDay, t % SecondsPerDay;
    assert t + d == q * SecondsPerDay + (r + d);
    if r + d < SecondsPerDay {
      assert (t + d) / SecondsPerDay == q;
    } else {
      assert t + d == (q + 1) * SecondsPerDay + (r + d - SecondsPerDay);
      assert (t + d) / SecondsPerDay == q + 1;
    }
  }

  /** The partial-day scenario: 10 hours after 03:45:26 is the same day, 21 hours after it is the next. */
  lemma PartialDayTimeChange(t: int)
    requires t % SecondsPerDay == 3 * 3600 + 45 * 60 + 26
    ensures LocalDay(t + 10 * 3600) == LocalDay(t)
    ensures LocalDay(t + 21 * 3600) == LocalDay(t) + 1
  {
    CalendarDayNotElapsedTime(t, 10 * 3600);
    CalendarDayNotElapsedTime(t, 21 * 3600);
  }

  // ---------------------------------------------------------------------------
  // Loops over one list

  /** MaintainContentLengthPrefsWindow: trims from the front, then zero-fills at the back. */
  method MaintainWindow(s: seq<int>) returns (r: seq<int>)
    ensures r == Window(s)
  {
    r := s;
    while |r| > NumDaysInHistory
      invariant |r| <= |s| && r == s[|s| - |r|..]
      invariant |s| > NumDaysInHistory ==> |r| >= NumDaysInHistory
      invariant |s| <= NumDaysInHistory ==> r == s
    {
      r := r[1..];
    }
    assert |s| <= NumDaysInHistory ==> r == s + Zeros(0);
    while |r| < NumDaysInHistory
      invariant |r| <= NumDaysInHistory
      invariant |s| <= NumDaysInHistory ==> |s| <= |r| && r == s + Zeros(|r| - |s|)
      invariant |s| > NumDaysInHistory ==> r == s[|s| - NumDaysInHistory..]
    {
      r := r + [0];
    }
  }

  /** MaintainContentLengthPrefsForDateChange for one list. */
  method MaintainForDateChange(s: seq<int>, daysSinceLastUpdate: int) returns (r: seq<int>)
    ensures r == DateChange(s, daysSinceLastUpdate)
  {
    var days := daysSinceLastUpdate;
    r := s;
    if days == -1 {
      days := 0;
    } else if days < -1 {
      r := [];
      days := NumDaysInHistory;
    }
    ghost var start := r;
    ghost var limit := if days < NumDaysInHistory then days else NumDaysInHistory;
    var i := 0;
    while i < days && i < NumDaysInHistory
      invariant 0 <= i <= limit
      invariant r == start + Zeros(i)
    {
      r := r + [0];
      i := i + 1;
    }
    r := MaintainWindow(r);
  }

  /** DailyContentLengthUpdate for one list: keep the window, move to the current day if it changed, add. */
  method UpdateDailyList(s: seq<int>, days: int, v: int) returns (r: seq<int>)
    ensures r == DailyStep(s, days, v)
  {
    r := MaintainWindow(s);
    if days != 0 {
      r := MaintainForDateChange(r, days);
    }
    r := r[..NumDaysInHistory - 1] + [r[NumDaysInHistory - 1] + v];
  }

  /** A stored list; one never written reads as empty. */
  function Lookup(m: map<DailyList, seq<int>>, l: DailyList): seq<int> {
    if l in m then m[l] else []
  }

  /** The response an update records. */
  datatype Response = Response(received: int, original: int, proxyEnabled: bool, requestType: ProxyRequestType)

  /** List `l` of `base` after an update `days` after the last one. */
  function UpdatedList(base: map<DailyList, seq<int>>, l: DailyList, days: int, r: Response): seq<int> {
    DailyStep(Lookup(base, l), days, Increment(l, r.received, r.original, r.proxyEnabled, r.requestType))
  }

  /** The first `k` lists of AllDailyLists are updated; the others are as in `base`. */
  predicate UpdatedBelow(lists: map<DailyList, seq<int>>, base: map<DailyList, seq<int>>, k: nat, days: int, r: Response) {
    forall l :: Lookup(lists, l) == if ListIndex(l) < k then UpdatedList(base, l, days, r) else Lookup(base, l)
  }

  lemma UpdatedBelowStep(lists: map<DailyList, seq<int>>, base: map<DailyList, seq<int>>, k: nat, days: int, r: Response)
    requires k < |AllDailyLists| && UpdatedBelow(lists, base, k, days, r)
    ensures UpdatedBelow(lists[AllDailyLists[k] := UpdatedList(base, AllDailyLists[k], days, r)], base, k + 1, days, r)
  {
    ListIndexOf(k);
  }

  lemma UpdatedAll(lists: map<DailyList, seq<int>>, base: map<DailyList, seq<int>>, days: int, r: Response)
    requires UpdatedBelow(lists, base, |AllDailyLists|, days, r)
    ensures forall l :: Lookup(lists, l) == UpdatedList(base, l, days, r)
  {
  }

  // ---------------------------------------------------------------------------
  // The preferences

  class ContentLengthPrefs {
    var httpReceivedContentLength: int
    var httpOriginalContentLength: int
    /** The calendar day of the last update, initially day 0. */
    var lastUpdateDay: int
    /** The stored daily lists; a list never written reads as empty. */
    var dailyLists: map<DailyList, seq<int>>

    function Daily(l: DailyList): seq<int>
      reads this
    {
      Lookup(dailyLists, l)
    }

    /** Registers the preferences: zero totals, day 0, every daily list empty. */
    constructor ()
      ensures httpReceivedContentLength == 0 && httpOriginalContentLength == 0
      ensures lastUpdateDay == 0
      ensures forall l :: Daily(l) == []
    {
      httpReceivedContentLength := 0;
      httpOriginalContentLength := 0;
      lastUpdateDay := 0;
      dailyLists := map[];
    }

    /** Sets list `l` to the window's worth of zeros, inserting one at the front at a time. */
    method CreatePrefList(l: DailyList)
      modifies this
      ensures Daily(l) == Zeros(NumDaysInHistory)
      ensures forall m :: m != l ==> Daily(m) == old(Daily(m))
      ensures httpReceivedContentLength == old(httpReceivedContentLength)
      ensures httpOriginalContentLength == old(httpOriginalContentLength)
      ensures lastUpdateDay == old(lastUpdateDay)
    {
      var list: seq<int> := [];
      var i := 0;
      while i < NumDaysInHistory
        invariant 0 <= i <= NumDaysInHistory
        invariant list == Zeros(i)
      {
        list := [0] + list;
        i := i + 1;
      }
      dailyLists := dailyLists[l := list];
    }

    /**
     * UpdateContentLengthPrefsForDataReductionProxy: moves every daily list to the
     * day of `now`, adds the lengths to the lists the update is routed to, and
     * records the day.
     */
    method UpdateContentLengthPrefsForDataReductionProxy(
      receivedContentLength: int, originalContentLength: int,
      proxyEnabled: bool, requestType: ProxyRequestType, now: int)
      modifies this
      ensures lastUpdateDay == LocalDay(now)
      ensures forall l :: Lookup(dailyLists, l) == DailyStep(Lookup(old(dailyLists), l), LocalDay(now) - old(lastUpdateDay),
        Increment(l, receivedContentLength, originalContentLength, proxyEnabled, requestType))
      ensures httpReceivedContentLength == old(httpReceivedContentLength)
      ensures httpOriginalContentLength == old(httpOriginalContentLength)
    {
      var today := LocalDay(now);
      var days := today - lastUpdateDay;
      ghost var r := Response(receivedContentLength, originalContentLength, proxyEnabled, requestType);
      var base := dailyLists;
      var lists := base;
      var k := 0;
      while k < |AllDailyLists|
        invariant 0 <= k <= |AllDailyLists|
        invariant UpdatedBelow(lists, base, k, days, r)
        invariant unchanged(this)
      {
        var l := AllDailyLists[k];
        var inc := Increment(l, receivedContentLength, originalContentLength, proxyEnabled, requestType);
        var list := UpdateDailyList(Lookup(base, l), days, inc);
        UpdatedBelowStep(lists, base, k, days, r);
        lists := lists[l := list];
        k := k + 1;
      }
      UpdatedAll(lists, base, days, r);
      dailyLists := lists;
      lastUpdateDay := today;
    }

    /** UpdateContentLengthPrefs: the running totals, then the daily lists at the current time `now`. */
    method UpdateContentLengthPrefs(
      receivedContentLength: int, originalContentLength: int,
      proxyEnabled: bool, requestType: ProxyRequestType, now: int)
      modifies this
      ensures httpReceivedContentLength == old(httpReceivedContentLength) + receivedContentLength
      ensures httpOriginalContentLength == old(httpOriginalContentLength) + originalContentLength
      ensures lastUpdateDay == LocalDay(now)
      ensures forall l :: Lookup(dailyLists, l) == DailyStep(Lookup(old(dailyLists), l), LocalDay(now) - old(lastUpdateDay),
        Increment(l, receivedContentLength, originalContentLength, proxyEnabled, requestType))
    {
      httpReceivedContentLength := httpReceivedContentLength + receivedContentLength;
      httpOriginalContentLength := httpOriginalContentLength + originalContentLength;
      UpdateContentLengthPrefsForDataReductionProxy(
        receivedContentLength, originalContentLength, proxyEnabled, requestType, now);
    }
  }
}
