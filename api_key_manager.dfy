/**
 * The YouTube API-key rotation manager: a list of keys loaded from the environment (and the
 * key-status table), a set of key values that failed today, a round-robin index and the
 * Pacific-time date of the last daily reset. The Pacific date is an input; persistence
 * writes to the key-status table and the observer callbacks are not modelled.
 */
module ApiKeyManager {
  import opened Wrappers

  /** Daily call quota of one key. */
  const QuotaPerKey: nat := 10000

  /** The environment variables the manager reads keys from, in load order. */
  const KeyNames: seq<string> := [
    "TRENDYBOT_MAIN_TASK_API_KEY",
    "TRENDYBOT_BACKUP_KEY_API_KEY",
    "TRENDYBOT_CHANNELS_PFP_API_KEY",
    "TRENDYBOT_PREF_PAGE_API_KEY",
    "TRENDYBOT_TRENDING_PAGE_API_KEY",
    "TRENDYBOT_RESEARCH_PAGE_API_KEY",
    "TRENDYBOT_ANALYTICS_API_KEY",
    "TRENDYBOT_FAILSAFE_API_KEY",
    "TRENDYBOT_FALLBACK_API_KEY",
    "TRENDYBOT_ADMIN_API_KEY"
  ]

  /** One in-memory key object. */
  datatype ApiKey = ApiKey(
    name: string,
    value: string,
    supabaseId: Option<nat>,
    callsMadeToday: nat,
    isFailedToday: bool,
    lastFailedPtDate: Option<string>,
    apiDailyStatus: string,
    dailyUsePercent: real)

  /** The fields of the manager, as a value. */
  datatype State = State(
    keys: seq<ApiKey>,
    failedKeyValues: set<string>,
    lastResetDatePT: Option<string>,
    lastUsedKeyIndex: int,
    managerLogicLastResetDatePT: Option<string>)

  /** A row of the key-status table. */
  datatype Row = Row(
    id: Option<nat>,
    callsMadeToday: Option<nat>,
    isFailed: Option<bool>,
    lastFailedPtDate: Option<string>,
    apiDailyStatus: Option<string>,
    dailyUsePercent: Option<real>)

  /** Outcome of looking a key's row up, and of inserting a new one. */
  datatype Fetch = FetchError | Rows(rows: seq<Row>)
  datatype Insert = InsertError | Inserted(id: Option<nat>)

  /** Per-key statistics as reported by `getStats`. */
  datatype KeyStats = KeyStats(
    name: string,
    callsMadeToday: nat,
    isFailedToday: bool,
    lastFailedPtDate: Option<string>,
    apiDailyStatus: string,
    dailyUsePercent: real)

  datatype Stats = Stats(
    totalKeys: nat,
    availableKeys: int,
    failedKeysToday: nat,
    lastResetDatePT: string,
    detailedKeyStats: seq<KeyStats>)

  /** Share of the daily quota used, capped at 1 (`Math.min(calls / QUOTA_PER_KEY, 1.0)`). */
  function UsePercent(calls: nat): (p: real)
    ensures 0.0 <= p <= 1.0
    ensures p == 1.0 <==> calls >= QuotaPerKey
    ensures p < 1.0 ==> p * QuotaPerKey as real == calls as real
  {
    var ratio := calls as real / QuotaPerKey as real;
    if ratio < 1.0 then ratio else 1.0
  }

  /** `Math.min(Math.max(p, 0.0), 1.0)`. */
  function Clamp01(p: real): (r: real)
    ensures 0.0 <= r <= 1.0
    ensures 0.0 <= p <= 1.0 ==> r == p
  {
    if p < 0.0 then 0.0 else if p > 1.0 then 1.0 else p
  }

  /** A key object with no usage and no failure recorded. */
  function FreshKey(name: string, value: string, id: Option<nat>): ApiKey
  {
    ApiKey(name, value, id, 0, false, None, "Okay", 0.0)
  }

  /**
   * `_loadOrInitializeKeyStatusFromSupabase`: no key without an environment value; an existing
   * row with an id restores its counters; otherwise a row is created; any store error falls
   * back to a fresh in-memory key.
   */
  function LoadKey(name: string, env: Option<string>, fetch: Fetch, insert: Insert): (r: Option<ApiKey>)
    ensures r.Some? <==> env.Some? && env.value != ""
    ensures r.Some? ==> r.value.name == name && r.value.value == env.value
    ensures r.Some? && (fetch.FetchError? || (fetch.Rows? && (|fetch.rows| == 0 || fetch.rows[0].id.GetOr(0) == 0) && insert.InsertError?))
            ==> r.value == FreshKey(name, env.value, None)
  {
    if env.None? || env.value == "" then None
    else
      var value := env.value;
      match fetch
      case FetchError => Some(FreshKey(name, value, None))
      case Rows(rows) =>
        if |rows| > 0 && rows[0].id.GetOr(0) != 0 then
          var row := rows[0];
          var calls := row.callsMadeToday.GetOr(0);
          var failed := row.isFailed.GetOr(false);
          var status := if row.apiDailyStatus.GetOr("") != "" then row.apiDailyStatus.value
                        else if failed then "Failed" else "Okay";
          var percent := if row.dailyUsePercent.Some? then row.dailyUsePercent.value
                         else calls as real / QuotaPerKey as real;
          var lastFailed := if row.lastFailedPtDate.GetOr("") != "" then row.lastFailedPtDate else None;
          Some(ApiKey(name, value, row.id, calls, failed, lastFailed, status, percent))
        else
          match insert
          case InsertError => Some(FreshKey(name, value, None))
          case Inserted(id) => Some(FreshKey(name, value, id))
  }

  /** The set of values held by a list of keys. */
  function ValueSet(ks: seq<ApiKey>): set<string>
  {
    if ks == [] then {} else ValueSet(ks[..|ks| - 1]) + {ks[|ks| - 1].value}
  }

  lemma {:induction false} ValueSetMembers(ks: seq<ApiKey>, v: string)
    ensures v in ValueSet(ks) <==> exists i :: 0 <= i < |ks| && ks[i].value == v
  {
    if ks != [] {
      ValueSetMembers(ks[..|ks| - 1], v);
      if v in ValueSet(ks[..|ks| - 1]) {
        var i :| 0 <= i < |ks| - 1 && ks[..|ks| - 1][i].value == v;
        assert ks[i].value == v;
      }
      if exists i :: 0 <= i < |ks| && ks[i].value == v {
        var i :| 0 <= i < |ks| && ks[i].value == v;
        if i < |ks| - 1 {
          assert ks[..|ks| - 1][i].value == v;
        }
      }
    }
  }

  /** There are never more distinct key values than keys. */
  lemma {:induction false} ValueSetSize(ks: seq<ApiKey>)
    ensures |ValueSet(ks)| <= |ks|
  {
    if ks != [] {
      ValueSetSize(ks[..|ks| - 1]);
    }
  }

  /** Replacing keys by others with the same values keeps the value set. */
  lemma {:induction false} ValueSetSameValues(ks: seq<ApiKey>, ls: seq<ApiKey>)
    requires |ks| == |ls|
    requires forall i :: 0 <= i < |ks| ==> ks[i].value == ls[i].value
    ensures ValueSet(ks) == ValueSet(ls)
  {
    if ks != [] {
      ValueSetSameValues(ks[..|ks| - 1], ls[..|ls| - 1]);
    }
  }

  /**
   * What every operation preserves: failed values belong to loaded keys, every loaded key has a
   * value, the round-robin index never drops below its initial -1, and once the first daily
   * reset has run every stored use percent lies in [0, 1].
   */
  predicate StateValid(st: State)
  {
    st.failedKeyValues <= ValueSet(st.keys)
    && st.lastUsedKeyIndex >= -1
    && (forall i :: 0 <= i < |st.keys| ==> st.keys[i].value != "")
    && (st.managerLogicLastResetDatePT.Some? ==>
          forall i :: 0 <= i < |st.keys| ==> 0.0 <= st.keys[i].dailyUsePercent <= 1.0)
  }

  function ResetKey(k: ApiKey): ApiKey
  {
    k.(callsMadeToday := 0, isFailedToday := false, apiDailyStatus := "Okay", dailyUsePercent := 0.0)
  }

  function ResetAll(ks: seq<ApiKey>): seq<ApiKey>
  {
    seq(|ks|, i requires 0 <= i < |ks| => ResetKey(ks[i]))
  }

  /** `_performDailyResetCheck`: reset everything when the Pacific date has moved on. */
  function ResetCheck(st: State, today: string): State
  {
    var st1 :=
      if st.managerLogicLastResetDatePT != Some(today) then
        st.(failedKeyValues := {}, keys := ResetAll(st.keys),
            managerLogicLastResetDatePT := Some(today), lastResetDatePT := Some(today))
      else st;
    if st1.lastResetDatePT.None? then
      st1.(lastResetDatePT := Some(st1.managerLogicLastResetDatePT.GetOr(today)))
    else st1
  }

  /** A key `getKey` may hand out. */
  predicate Usable(k: ApiKey, failed: set<string>)
  {
    k.value != "" && k.value !in failed && !k.isFailedToday
  }

  /** Positions of the usable keys, in list order (the `availableKeys` filter). */
  function Available(ks: seq<ApiKey>, failed: set<string>): (r: seq<nat>)
    ensures forall j :: 0 <= j < |r| ==> r[j] < |ks| && Usable(ks[r[j]], failed)
    ensures forall i :: 0 <= i < |ks| && Usable(ks[i], failed) ==> i in r
    ensures forall j, k :: 0 <= j < k < |r| ==> r[j] < r[k]
  {
    if ks == [] then []
    else
      var rest := Available(ks[..|ks| - 1], failed);
      if Usable(ks[|ks| - 1], failed) then rest + [|ks| - 1] else rest
  }

  /** The result of one `getKey` call: the new state and the key value handed out, if any. */
  datatype Pick = Pick(state: State, key: Option<string>)

  /** Round-robin selection among the usable keys of an already reset-checked state. */
  function PickFrom(s1: State): Pick
  {
    var avail := Available(s1.keys, s1.failedKeyValues);
    if |avail| == 0 then Pick(s1, None)
    else
      var idx := (s1.lastUsedKeyIndex + 1) % |avail|;
      var p := avail[idx];
      var k := s1.keys[p];
      var calls := k.callsMadeToday + 1;
      Pick(s1.(lastUsedKeyIndex := idx,
               keys := s1.keys[p := k.(callsMadeToday := calls, dailyUsePercent := UsePercent(calls))]),
           Some(k.value))
  }

  /** The pick names the key at the next round-robin position among the usable ones. */
  lemma PickFromChosen(s1: State, avail: seq<nat>, idx: int, updated: ApiKey)
    requires avail == Available(s1.keys, s1.failedKeyValues) && |avail| > 0
    requires idx == (s1.lastUsedKeyIndex + 1) % |avail|
    requires var k := s1.keys[avail[idx]];
             updated == k.(callsMadeToday := k.callsMadeToday + 1, dailyUsePercent := UsePercent(k.callsMadeToday + 1))
    ensures PickFrom(s1) ==
            Pick(s1.(lastUsedKeyIndex := idx, keys := s1.keys[avail[idx] := updated]), Some(s1.keys[avail[idx]].value))
  {
  }

  /** `getKey`: the daily reset check, then the round-robin pick. */
  function GetKeyStep(st: State, today: string): Pick
  {
    PickFrom(ResetCheck(st, today))
  }

  /** The first key holding `v` (`this.keys.find`). */
  function FirstWithValue(ks: seq<ApiKey>, v: string): (r: Option<nat>)
    ensures r.Some? ==> r.value < |ks| && ks[r.value].value == v
    ensures r.Some? ==> forall j :: 0 <= j < r.value ==> ks[j].value != v
    ensures r.None? ==> forall j :: 0 <= j < |ks| ==> ks[j].value != v
  {
    if ks == [] then None
    else if ks[0].value == v then Some(0)
    else
      match FirstWithValue(ks[1..], v)
      case None => None
      case Some(p) => Some(p + 1)
  }

  /** `reportKeyFailure`. */
  function ReportFailure(st: State, keyValue: string, today: string): State
  {
    if keyValue == "" then st
    else
      match FirstWithValue(st.keys, keyValue)
      case None => st
      case Some(p) =>
        var k := st.keys[p];
        st.(keys := st.keys[p := k.(isFailedToday := true, lastFailedPtDate := Some(today),
                                     apiDailyStatus := "Failed",
                                     dailyUsePercent := UsePercent(k.callsMadeToday))],
            failedKeyValues := st.failedKeyValues + {keyValue})
  }

  function KeyStatsOf(k: ApiKey): KeyStats
  {
    KeyStats(
      if k.name == "" then "Unknown Key" else k.name,
      k.callsMadeToday,
      k.isFailedToday,
      if k.lastFailedPtDate == Some("") then None else k.lastFailedPtDate,
      if k.apiDailyStatus != "" then k.apiDailyStatus else if k.isFailedToday then "Failed" else "Okay",
      Clamp01(k.dailyUsePercent))
  }

  /** The statistics object `getStats` builds from a (freshly reset-checked) state. */
  function StatsOf(st: State, today: string): Stats
  {
    Stats(
      |st.keys|,
      |st.keys| - |st.failedKeyValues|,
      |st.failedKeyValues|,
      st.lastResetDatePT.GetOr(today),
      seq(|st.keys|, i requires 0 <= i < |st.keys| => KeyStatsOf(st.keys[i])))
  }

  /** Keys whose load produced a key with a value (`resolvedKeys.filter(k => k && k.value)`). */
  function LoadedKeys(loaded: seq<Option<ApiKey>>): seq<ApiKey>
  {
    if loaded == [] then []
    else
      var rest := LoadedKeys(loaded[..|loaded| - 1]);
      var last := loaded[|loaded| - 1];
      if last.Some? && last.value.value != "" then rest + [last.value] else rest
  }

  /** Values of keys whose stored failure is dated today. */
  function RestoredFailures(ks: seq<ApiKey>, today: string): set<string>
  {
    if ks == [] then {}
    else
      var rest := RestoredFailures(ks[..|ks| - 1], today);
      var k := ks[|ks| - 1];
      if k.isFailedToday && k.lastFailedPtDate == Some(today) then rest + {k.value} else rest
  }

  /** The fresh manager state before `_initializeManager`. */
  const Initial: State := State([], {}, None, -1, None)

  /** `_initializeManager` with the key-status table reachable. */
  function InitFromStore(loaded: seq<Option<ApiKey>>, today: string): State
  {
    var ks := LoadedKeys(loaded);
    ResetCheck(Initial.(keys := ks, failedKeyValues := RestoredFailures(ks, today)), today)
  }

  /** Keys built from the environment alone, for names with a non-empty value. */
  function EnvKeys(names: seq<string>, env: map<string, string>): seq<ApiKey>
  {
    if names == [] then []
    else
      var rest := EnvKeys(names[..|names| - 1], env);
      var n := names[|names| - 1];
      if n in env && env[n] != "" then rest + [FreshKey(n, env[n], None)] else rest
  }

  /** `_initializeManager` in degraded mode (no key-status table). */
  function InitDegraded(env: map<string, string>, today: string): State
  {
    ResetCheck(Initial.(keys := EnvKeys(KeyNames, env)), today)
  }

  // ---------------------------------------------------------------------------------------
  // Properties of the operations.

  /** A reset on a new day clears the failed set and zeroes every key, keeping names, values and ids. */
  lemma ResetOnNewDay(st: State, today: string)
    requires st.managerLogicLastResetDatePT != Some(today)
    ensures var r := ResetCheck(st, today);
      r.failedKeyValues == {} && |r.keys| == |st.keys|
      && r.managerLogicLastResetDatePT == Some(today) && r.lastResetDatePT == Some(today)
      && r.lastUsedKeyIndex == st.lastUsedKeyIndex
      && forall i :: 0 <= i < |r.keys| ==>
           r.keys[i].callsMadeToday == 0 && !r.keys[i].isFailedToday
           && r.keys[i].apiDailyStatus == "Okay" && r.keys[i].dailyUsePercent == 0.0
           && r.keys[i].name == st.keys[i].name && r.keys[i].value == st.keys[i].value
           && r.keys[i].supabaseId == st.keys[i].supabaseId
           && r.keys[i].lastFailedPtDate == st.keys[i].lastFailedPtDate
  {
  }

  /** On the day of the last reset the check changes nothing but a missing `lastResetDatePT`. */
  lemma ResetSameDay(st: State, today: string)
    requires st.managerLogicLastResetDatePT == Some(today)
    ensures ResetCheck(st, today) == st.(lastResetDatePT := Some(st.lastResetDatePT.GetOr(today)))
  {
  }

  /** A second reset check on the same date is a no-op. */
  lemma ResetIdempotent(st: State, today: string)
    ensures ResetCheck(ResetCheck(st, today), today) == ResetCheck(st, today)
  {
  }

  lemma ResetPreservesValid(st: State, today: string)
    requires st.failedKeyValues <= ValueSet(st.keys) && st.lastUsedKeyIndex >= -1
    requires forall i :: 0 <= i < |st.keys| ==> st.keys[i].value != ""
    requires st.managerLogicLastResetDatePT == Some(today) ==> StateValid(st)
    ensures StateValid(ResetCheck(st, today))
  {
    if st.managerLogicLastResetDatePT != Some(today) {
      ValueSetSameValues(st.keys, ResetAll(st.keys));
    }
  }

  /** `getKey` returns null exactly when, after the reset check, no loaded key is usable. */
  lemma GetKeyNullIff(st: State, today: string)
    ensures var s1 := ResetCheck(st, today);
      GetKeyStep(st, today).key.None? <==>
        forall i :: 0 <= i < |s1.keys| ==> !Usable(s1.keys[i], s1.failedKeyValues)
  {
    var s1 := ResetCheck(st, today);
    var avail := Available(s1.keys, s1.failedKeyValues);
    if |avail| > 0 {
      assert Usable(s1.keys[avail[0]], s1.failedKeyValues);
    }
  }

  /**
   * A handed-out key is usable: it has a value, is not in the failed set and is not flagged
   * failed today; the index is (previous + 1) mod |available| and so a valid position.
   */
  lemma GetKeyPicksUsable(st: State, today: string)
    requires st.lastUsedKeyIndex >= -1
    ensures var s1 := ResetCheck(st, today);
      var avail := Available(s1.keys, s1.failedKeyValues);
      var pick := GetKeyStep(st, today);
      pick.key.Some? ==>
        pick.key.value != "" && pick.key.value !in pick.state.failedKeyValues
        && 0 <= pick.state.lastUsedKeyIndex < |avail|
        && pick.state.lastUsedKeyIndex == (st.lastUsedKeyIndex + 1) % |avail|
        && var p := avail[pick.state.lastUsedKeyIndex];
           s1.keys[p].value == pick.key.value && !s1.keys[p].isFailedToday
           && !pick.state.keys[p].isFailedToday
  {
  }

  /** `getKey` adds exactly one call to the selected key and leaves every other key as it was. */
  lemma GetKeyCountsOneCall(st: State, today: string)
    ensures var s1 := ResetCheck(st, today);
      var pick := GetKeyStep(st, today);
      |pick.state.keys| == |s1.keys| && pick.state.failedKeyValues == s1.failedKeyValues
      && (pick.key.None? ==> pick.state == s1)
      && (pick.key.Some? ==> exists p :: (0 <= p < |s1.keys| &&
            pick.state.keys[p].callsMadeToday == s1.keys[p].callsMadeToday + 1
            && pick.state.keys[p].dailyUsePercent == UsePercent(pick.state.keys[p].callsMadeToday)
            && pick.state.keys[p].value == pick.key.value
            && forall i :: 0 <= i < |s1.keys| && i != p ==> pick.state.keys[i] == s1.keys[i]))
  {
    var s1 := ResetCheck(st, today);
    var avail := Available(s1.keys, s1.failedKeyValues);
    if |avail| > 0 {
      var idx := (s1.lastUsedKeyIndex + 1) % |avail|;
      var p := avail[idx];
      assert GetKeyStep(st, today).state.keys[p].callsMadeToday == s1.keys[p].callsMadeToday + 1;
    }
  }

  lemma GetKeyPreservesValid(st: State, today: string)
    requires StateValid(st)
    ensures StateValid(GetKeyStep(st, today).state)
  {
    ResetPreservesValid(st, today);
    PickPreservesValid(ResetCheck(st, today));
  }

  /** The round-robin pick keeps the invariant: it only counts one call on one key. */
  lemma PickPreservesValid(s1: State)
    requires StateValid(s1)
    ensures StateValid(PickFrom(s1).state)
  {
    var avail := Available(s1.keys, s1.failedKeyValues);
    if |avail| > 0 {
      var idx := (s1.lastUsedKeyIndex + 1) % |avail|;
      var p := avail[idx];
      var k := s1.keys[p];
      var updated := k.(callsMadeToday := k.callsMadeToday + 1, dailyUsePercent := UsePercent(k.callsMadeToday + 1));
      var ks := s1.keys[p := updated];
      assert PickFrom(s1).state == s1.(lastUsedKeyIndex := idx, keys := ks);
      ValueSetSameValues(s1.keys, ks);
      assert forall i :: 0 <= i < |ks| ==> ks[i].value != "";
      assert forall i :: 0 <= i < |ks| ==> ks[i] == s1.keys[i] || ks[i] == updated;
    }
  }

  /** Reporting an empty or unknown value changes nothing. */
  lemma ReportUnknownNoop(st: State, keyValue: string, today: string)
    requires keyValue == "" || forall i :: 0 <= i < |st.keys| ==> st.keys[i].value != keyValue
    ensures ReportFailure(st, keyValue, today) == st
  {
  }

  /**
   * Reporting a known value flags its first key failed today with today's date and status
   * 'Failed', adds the value to the failed set, and touches no other key.
   */
  lemma ReportKnown(st: State, keyValue: string, today: string, p: nat)
    requires keyValue != "" && p < |st.keys| && st.keys[p].value == keyValue
    requires forall j :: 0 <= j < p ==> st.keys[j].value != keyValue
    ensures var r := ReportFailure(st, keyValue, today);
      |r.keys| == |st.keys| && r.failedKeyValues == st.failedKeyValues + {keyValue}
      && r.keys[p].isFailedToday && r.keys[p].lastFailedPtDate == Some(today)
      && r.keys[p].apiDailyStatus == "Failed"
      && r.keys[p].dailyUsePercent == UsePercent(st.keys[p].callsMadeToday)
      && r.keys[p].callsMadeToday == st.keys[p].callsMadeToday
      && (forall i :: 0 <= i < |st.keys| && i != p ==> r.keys[i] == st.keys[i])
      && r.lastUsedKeyIndex == st.lastUsedKeyIndex
  {
    var q := FirstWithValue(st.keys, keyValue);
    assert q.Some? && q.value == p;
  }

  /** Reporting the same failure twice is the same as reporting it once. */
  lemma ReportIdempotent(st: State, keyValue: string, today: string)
    ensures ReportFailure(ReportFailure(st, keyValue, today), keyValue, today)
         == ReportFailure(st, keyValue, today)
  {
    var r := ReportFailure(st, keyValue, today);
    if keyValue != "" {
      match FirstWithValue(st.keys, keyValue)
      case None =>
      case Some(p) =>
        var q := FirstWithValue(r.keys, keyValue);
        assert q.Some? && q.value == p by {
          assert r.keys[p].value == keyValue;
          assert forall j :: 0 <= j < p ==> r.keys[j].value == st.keys[j].value;
        }
    }
  }

  lemma ReportPreservesValid(st: State, keyValue: string, today: string)
    requires StateValid(st)
    ensures StateValid(ReportFailure(st, keyValue, today))
  {
    var r := ReportFailure(st, keyValue, today);
    if keyValue != "" {
      match FirstWithValue(st.keys, keyValue)
      case None =>
      case Some(p) =>
        ValueSetSameValues(st.keys, r.keys);
        ValueSetMembers(st.keys, keyValue);
    }
  }

  /**
   * In a valid state the statistics are consistent: available + failed = total and both are
   * non-negative, and every reported use percent lies in [0, 1].
   */
  lemma StatsConsistent(st: State, today: string)
    requires StateValid(st)
    ensures var s := StatsOf(st, today);
      s.availableKeys + s.failedKeysToday == s.totalKeys
      && 0 <= s.availableKeys && s.failedKeysToday <= s.totalKeys
      && |s.detailedKeyStats| == s.totalKeys
      && forall i :: 0 <= i < |s.detailedKeyStats| ==>
           0.0 <= s.detailedKeyStats[i].dailyUsePercent <= 1.0
           && s.detailedKeyStats[i].callsMadeToday == st.keys[i].callsMadeToday
  {
    ValueSetSize(st.keys);
    assert |st.failedKeyValues| <= |ValueSet(st.keys)| by {
      SubsetCard(st.failedKeyValues, ValueSet(st.keys));
    }
  }

  lemma SubsetCard<T>(a: set<T>, b: set<T>)
    requires a <= b
    ensures |a| <= |b|
  {
    assert b == a + (b - a);
  }

  lemma {:induction false} LoadedKeysHaveValues(loaded: seq<Option<ApiKey>>)
    ensures forall i :: 0 <= i < |LoadedKeys(loaded)| ==> LoadedKeys(loaded)[i].value != ""
    ensures |LoadedKeys(loaded)| <= |loaded|
  {
    if loaded != [] {
      LoadedKeysHaveValues(loaded[..|loaded| - 1]);
    }
  }

  lemma {:induction false} RestoredAreLoaded(ks: seq<ApiKey>, today: string)
    ensures RestoredFailures(ks, today) <= ValueSet(ks)
  {
    if ks != [] {
      RestoredAreLoaded(ks[..|ks| - 1], today);
    }
  }

  /**
   * Initialisation always ends with a reset (the logic date starts null), so the failures it
   * restores for today are cleared again and every key starts the day usable and at zero calls.
   */
  lemma InitClearsRestoredFailures(loaded: seq<Option<ApiKey>>, today: string)
    ensures var st := InitFromStore(loaded, today);
      StateValid(st) && st.failedKeyValues == {} && st.lastUsedKeyIndex == -1
      && st.managerLogicLastResetDatePT == Some(today) && st.lastResetDatePT == Some(today)
      && |st.keys| == |LoadedKeys(loaded)|
      && forall i :: 0 <= i < |st.keys| ==>
           Usable(st.keys[i], st.failedKeyValues) && st.keys[i].callsMadeToday == 0
  {
    var ks := LoadedKeys(loaded);
    LoadedKeysHaveValues(loaded);
    RestoredAreLoaded(ks, today);
    ResetPreservesValid(Initial.(keys := ks, failedKeyValues := RestoredFailures(ks, today)), today);
  }

  lemma {:induction false} EnvKeysShape(names: seq<string>, env: map<string, string>)
    ensures |EnvKeys(names, env)| <= |names|
    ensures forall k :: k in EnvKeys(names, env) ==>
      k.name in names && k.name in env && k.value == env[k.name] && k.value != "" && k.supabaseId.None?
  {
    if names != [] {
      EnvKeysShape(names[..|names| - 1], env);
    }
  }

  /** Degraded mode loads one fresh key per configured name with a non-empty value. */
  lemma InitDegradedShape(env: map<string, string>, today: string)
    ensures var st := InitDegraded(env, today);
      StateValid(st) && st.failedKeyValues == {} && |st.keys| <= |KeyNames|
      && forall i :: 0 <= i < |st.keys| ==>
           st.keys[i].name in KeyNames && st.keys[i].name in env
           && st.keys[i].value == env[st.keys[i].name]
           && st.keys[i].supabaseId.None? && Usable(st.keys[i], {})
  {
    var ks := EnvKeys(KeyNames, env);
    EnvKeysShape(KeyNames, env);
    ResetPreservesValid(Initial.(keys := ks), today);
    var st := InitDegraded(env, today);
    assert st.keys == ResetAll(ks);
    forall i | 0 <= i < |st.keys|
      ensures st.keys[i].name in KeyNames && st.keys[i].name in env
      ensures st.keys[i].value == env[st.keys[i].name] && st.keys[i].supabaseId.None?
    {
      assert ks[i] in ks;
    }
  }

  // ---------------------------------------------------------------------------------------
  // The manager object.

  class Manager {
    var keys: seq<ApiKey>
    var failedKeyValues: set<string>
    var lastResetDatePT: Option<string>
    var lastUsedKeyIndex: int
    var managerLogicLastResetDatePT: Option<string>

    function Snapshot(): State
      reads this
    {
      State(keys, failedKeyValues, lastResetDatePT, lastUsedKeyIndex, managerLogicLastResetDatePT)
    }

    ghost predicate Valid()
      reads this
    {
      StateValid(Snapshot())
    }

    /** `_initializeManager` with the key-status table: filter, restore today's failures, reset. */
    constructor FromStore(loaded: seq<Option<ApiKey>>, today: string)
      ensures Valid() && Snapshot() == InitFromStore(loaded, today)
    {
      keys, failedKeyValues, lastResetDatePT := [], {}, None;
      lastUsedKeyIndex, managerLogicLastResetDatePT := -1, None;
      new;
      var i := 0;
      while i < |loaded|
        invariant 0 <= i <= |loaded|
        invariant keys == LoadedKeys(loaded[..i])
        invariant Snapshot() == Initial.(keys := keys)
      {
        assert loaded[..i + 1][..i] == loaded[..i];
        var k := loaded[i];
        if k.Some? && k.value.value != "" {
          keys := keys + [k.value];
        }
        i := i + 1;
      }
      assert loaded[..|loaded|] == loaded;
      var j := 0;
      while j < |keys|
        invariant 0 <= j <= |keys|
        invariant keys == LoadedKeys(loaded)
        invariant failedKeyValues == RestoredFailures(keys[..j], today)
        invariant Snapshot() == Initial.(keys := keys, failedKeyValues := failedKeyValues)
      {
        assert keys[..j + 1][..j] == keys[..j];
        if keys[j].isFailedToday && keys[j].lastFailedPtDate == Some(today) {
          failedKeyValues := failedKeyValues + {keys[j].value};
        }
        j := j + 1;
      }
      assert keys[..|keys|] == keys;
      LoadedKeysHaveValues(loaded);
      RestoredAreLoaded(keys, today);
      PerformDailyResetCheck(today);
    }

    /** `_performDailyResetCheck`: the for-loop rewrites every key object in place. */
    method PerformDailyResetCheck(today: string)
      requires failedKeyValues <= ValueSet(keys) && lastUsedKeyIndex >= -1
      requires forall i :: 0 <= i < |keys| ==> keys[i].value != ""
      requires managerLogicLastResetDatePT == Some(today) ==> Valid()
      modifies this
      ensures Valid()
      ensures Snapshot() == ResetCheck(old(Snapshot()), today)
    {
      ghost var s0 := Snapshot();
      ResetPreservesValid(s0, today);
      if managerLogicLastResetDatePT != Some(today) {
        failedKeyValues := {};
        var ks := keys;
        var i := 0;
        while i < |ks|
          invariant 0 <= i <= |ks| == |s0.keys|
          invariant forall j :: 0 <= j < i ==> ks[j] == ResetKey(s0.keys[j])
          invariant forall j :: i <= j < |ks| ==> ks[j] == s0.keys[j]
        {
          ks := ks[i := ResetKey(ks[i])];
          i := i + 1;
        }
        assert ks == ResetAll(s0.keys);
        keys := ks;
        managerLogicLastResetDatePT := Some(today);
        lastResetDatePT := Some(today);
      }
      if lastResetDatePT.None? {
        lastResetDatePT := Some(managerLogicLastResetDatePT.GetOr(today));
      }
      assert Snapshot() == ResetCheck(s0, today);
    }

    /** The `availableKeys` filter of `getKey`, as positions into `keys`. */
    method AvailablePositions() returns (r: seq<nat>)
      ensures r == Available(keys, failedKeyValues)
    {
      r := [];
      var i := 0;
      while i < |keys|
        invariant 0 <= i <= |keys|
        invariant r == Available(keys[..i], failedKeyValues)
      {
        assert keys[..i + 1][..i] == keys[..i];
        if keys[i].value != "" && keys[i].value !in failedKeyValues && !keys[i].isFailedToday {
          r := r + [i];
        }
        i := i + 1;
      }
      assert keys[..|keys|] == keys;
    }

    /** `getKey`: reset check, then round-robin over the usable keys, counting the call. */
    method GetKey(today: string) returns (key: Option<string>)
      requires Valid()
      modifies this
      ensures Valid()
      ensures Pick(Snapshot(), key) == GetKeyStep(old(Snapshot()), today)
    {
      GetKeyPreservesValid(Snapshot(), today);
      PerformDailyResetCheck(today);
      key := NextKey();
    }

    /** The round-robin part of `getKey`, on the state the reset check left. */
    method NextKey() returns (key: Option<string>)
      modifies this
      ensures Pick(Snapshot(), key) == PickFrom(old(Snapshot()))
    {
      ghost var s1 := Snapshot();
      var avail := AvailablePositions();
      if |avail| == 0 {
        return None;
      }
      var idx := (lastUsedKeyIndex + 1) % |avail|;
      var p := avail[idx];
      var k := keys[p];
      var calls := k.callsMadeToday + 1;
      var updated := k.(callsMadeToday := calls, dailyUsePercent := UsePercent(calls));
      PickFromChosen(s1, avail, idx, updated);
      lastUsedKeyIndex := idx;
      keys := keys[p := updated];
      key := Some(k.value);
      assert Snapshot() == s1.(lastUsedKeyIndex := idx, keys := s1.keys[p := updated]);
    }

    /** The `keys.find` of `reportKeyFailure`. */
    method FindKey(keyValue: string) returns (r: Option<nat>)
      ensures r == FirstWithValue(keys, keyValue)
    {
      var i := 0;
      while i < |keys|
        invariant 0 <= i <= |keys|
        invariant forall j :: 0 <= j < i ==> keys[j].value != keyValue
      {
        if keys[i].value == keyValue {
          return Some(i);
        }
        i := i + 1;
      }
      return None;
    }

    /** `reportKeyFailure`. */
    method ReportKeyFailure(keyValue: string, today: string)
      requires Valid()
      modifies this
      ensures Valid()
      ensures Snapshot() == ReportFailure(old(Snapshot()), keyValue, today)
    {
      ReportPreservesValid(Snapshot(), keyValue, today);
      if keyValue == "" {
        return;
      }
      var found := FindKey(keyValue);
      if found.None? {
        return;
      }
      var p := found.value;
      var k := keys[p];
      keys := keys[p := k.(isFailedToday := true, lastFailedPtDate := Some(today),
                           apiDailyStatus := "Failed", dailyUsePercent := UsePercent(k.callsMadeToday))];
      failedKeyValues := failedKeyValues + {keyValue};
    }

    /** `getStats`: reset check, then the statistics of the current keys. */
    method GetStats(today: string) returns (stats: Stats)
      requires Valid()
      modifies this
      ensures Valid()
      ensures Snapshot() == ResetCheck(old(Snapshot()), today)
      ensures stats == StatsOf(Snapshot(), today)
      ensures stats.availableKeys + stats.failedKeysToday == stats.totalKeys && stats.availableKeys >= 0
    {
      PerformDailyResetCheck(today);
      var details := Details(keys);
      stats := Stats(|keys|, |keys| - |failedKeyValues|, |failedKeyValues|,
                     lastResetDatePT.GetOr(today), details);
      StatsConsistent(Snapshot(), today);
    }

    /** The `keys.map(...)` of `getStats`: one statistics entry per key, in order. */
    static method Details(ks: seq<ApiKey>) returns (details: seq<KeyStats>)
      ensures |details| == |ks|
      ensures forall j :: 0 <= j < |ks| ==> details[j] == KeyStatsOf(ks[j])
    {
      details := [];
      var i := 0;
      while i < |ks|
        invariant 0 <= i <= |ks|
        invariant |details| == i
        invariant forall j :: 0 <= j < i ==> details[j] == KeyStatsOf(ks[j])
      {
        details := details + [KeyStatsOf(ks[i])];
        i := i + 1;
      }
    }
  }
}
