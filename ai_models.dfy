/**
 * Usage accounting for the AI features: the monthly request counters, the
 * detailed log capped at the 1000 most recent entries, per-key statistics
 * over that log, and the per-provider model tables with model lookup.
 * Costs are floating-point amounts and are not modelled.
 */
module AIModels {
  import opened Wrappers
  import opened DataModels

  const DefaultMonthlyLimit: int := 100
  /** `addLog` keeps at most this many entries. */
  const HistoryCap: nat := 1000

  /** The sum of the values of a map. */
  ghost function Total<K>(m: map<K, int>): int
    decreases |m.Keys|
  {
    if m.Keys == {} then 0
    else
      var k :| k in m;
      assert (m - {k}).Keys < m.Keys;
      m[k] + Total(m - {k})
  }

  /** Any key may be taken out first: the sum does not depend on the order. */
  lemma {:induction false} TotalRemove<K>(m: map<K, int>, k: K)
    requires k in m
    ensures Total(m) == m[k] + Total(m - {k})
    decreases |m.Keys|
  {
    var j :| j in m && Total(m) == m[j] + Total(m - {j});
    if j != k {
      assert (m - {j}).Keys < m.Keys && (m - {k}).Keys < m.Keys;
      TotalRemove(m - {j}, k);
      TotalRemove(m - {k}, j);
      assert m - {j} - {k} == m - {k} - {j};
    }
  }

  /** Setting one key changes the sum by the difference at that key. */
  lemma TotalUpdate<K>(m: map<K, int>, k: K, v: int)
    ensures Total(m[k := v]) == Total(m) - (if k in m then m[k] else 0) + v
  {
    var m' := m[k := v];
    TotalRemove(m', k);
    if k in m {
      TotalRemove(m, k);
      assert m' - {k} == m - {k};
    } else {
      assert m' - {k} == m;
    }
  }

  /** `m[k, default: 0] += 1`. */
  function Bump<K>(m: map<K, int>, k: K): (r: map<K, int>)
    ensures r.Keys == m.Keys + {k}
    ensures forall j :: j in m && j != k ==> r[j] == m[j]
  {
    m[k := (if k in m then m[k] else 0) + 1]
  }

  /** Counting one more request of a kind adds exactly one to the sum of the counts. */
  lemma BumpTotal<K>(m: map<K, int>, k: K)
    ensures Total(Bump(m, k)) == Total(m) + 1
    ensures Bump(m, k)[k] == (if k in m then m[k] else 0) + 1
  {
    TotalUpdate(m, k, (if k in m then m[k] else 0) + 1);
  }

  /** The monthly counters (`AIUsageStats`). */
  class UsageStats {
    var totalRequests: int
    var requestsByType: map<string, int>
    var totalTokens: int
    var lastResetDate: Date
    var monthlyLimit: int

    /** Every request is counted under exactly one request type. */
    ghost predicate Valid()
      reads this
    {
      Total(requestsByType) == totalRequests
    }

    constructor (now: Date, monthlyLimit: int := DefaultMonthlyLimit)
      ensures totalRequests == 0 && requestsByType == map[] && totalTokens == 0
      ensures lastResetDate == now && this.monthlyLimit == monthlyLimit
      ensures Valid()
    {
      totalRequests := 0;
      requestsByType := map[];
      totalTokens := 0;
      lastResetDate := now;
      this.monthlyLimit := monthlyLimit;
    }

    /** `recordUsage`: one more request of `requestType` that used `tokens` tokens. */
    method RecordUsage(requestType: string, tokens: int)
      requires Valid()
      modifies this
      ensures Valid()
      ensures totalRequests == old(totalRequests) + 1
      ensures requestsByType == Bump(old(requestsByType), requestType)
      ensures requestsByType[requestType] == old(if requestType in requestsByType then requestsByType[requestType] else 0) + 1
      ensures totalTokens == old(totalTokens) + tokens
      ensures lastResetDate == old(lastResetDate) && monthlyLimit == old(monthlyLimit)
    {
      BumpTotal(requestsByType, requestType);
      totalRequests := totalRequests + 1;
      requestsByType := Bump(requestsByType, requestType);
      totalTokens := totalTokens + tokens;
    }

    /**
     * `resetIfNeeded`: the counters start again when `now` falls in another
     * calendar month than the last reset, as judged by `sameMonth`.
     */
    method ResetIfNeeded(now: Date, sameMonth: (Date, Date) -> bool)
      requires Valid()
      modifies this
      ensures Valid() && monthlyLimit == old(monthlyLimit)
      ensures sameMonth(old(lastResetDate), now) ==>
        totalRequests == old(totalRequests) && requestsByType == old(requestsByType)
        && totalTokens == old(totalTokens) && lastResetDate == old(lastResetDate)
      ensures !sameMonth(old(lastResetDate), now) ==>
        totalRequests == 0 && requestsByType == map[] && totalTokens == 0 && lastResetDate == now
    {
      if !sameMonth(lastResetDate, now) {
        totalRequests := 0;
        requestsByType := map[];
        totalTokens := 0;
        lastResetDate := now;
      }
    }

    /** `remainingRequests`: what is left of the monthly limit, never negative. */
    function RemainingRequests(): (r: int)
      reads this
      ensures r >= 0 && r >= monthlyLimit - totalRequests
      ensures r == 0 || r == monthlyLimit - totalRequests
    {
      if monthlyLimit - totalRequests > 0 then monthlyLimit - totalRequests else 0
    }

    /** `isQuotaExceeded`: exactly when nothing of the limit remains. */
    function IsQuotaExceeded(): (b: bool)
      reads this
      ensures b <==> RemainingRequests() == 0
    {
      totalRequests >= monthlyLimit
    }
  }

  /** One detailed log entry (`AIUsageLogEntry`); the estimated cost is left out. */
  datatype LogEntry = LogEntry(
    id: Uuid,
    timestamp: Date,
    requestType: string,
    provider: string,
    model: string,
    inputTokens: int,
    outputTokens: int,
    totalTokens: int,
    contentLength: int,
    success: bool,
    errorMessage: Option<string>)

  /**
   * The entry initialiser: identifier and timestamp come from outside, and
   * the total is derived from the two token counts.
   */
  function NewLogEntry(freshId: Uuid, now: Date, requestType: string, provider: string, model: string,
                       inputTokens: int, outputTokens: int, contentLength: int,
                       success: bool := true, errorMessage: Option<string> := None): (e: LogEntry)
    ensures e.totalTokens == e.inputTokens + e.outputTokens
    ensures e.inputTokens == inputTokens && e.outputTokens == outputTokens
    ensures e.id == freshId && e.timestamp == now && e.requestType == requestType
    ensures e.provider == provider && e.model == model && e.contentLength == contentLength
    ensures e.success == success && e.errorMessage == errorMessage
  {
    LogEntry(freshId, now, requestType, provider, model, inputTokens, outputTokens,
             inputTokens + outputTokens, contentLength, success, errorMessage)
  }

  /** The `cap` most recent elements of `s` (`suffix(cap)` once `s` is longer than `cap`). */
  function Recent<T>(s: seq<T>, cap: nat): (r: seq<T>)
    ensures |r| <= cap && |r| <= |s|
    ensures r == s[|s| - |r|..]
    ensures |s| <= cap ==> r == s
    ensures |s| > cap ==> |r| == cap
  {
    if |s| > cap then s[|s| - cap..] else s
  }

  /** Appending under a positive cap keeps the new element last and the earlier ones in order. */
  lemma RecentAppend<T>(s: seq<T>, e: T, cap: nat)
    requires cap > 0
    ensures var r := Recent(s + [e], cap);
      r != [] && r[|r| - 1] == e && r[..|r| - 1] == Recent(s, cap - 1)
  {
    var t := s + [e];
    var r := Recent(t, cap);
    if |t| > cap {
      assert r[..|r| - 1] == s[|s| - (cap - 1)..];
    } else {
      assert r[..|r| - 1] == s;
    }
  }

  /** Aggregated figures for one key: how many entries and how many tokens. */
  datatype KeyStats = KeyStats(count: int, totalTokens: int)

  function RequestTypeKey(e: LogEntry): string { e.requestType }
  function ProviderKey(e: LogEntry): string { e.provider }

  /** The figures the first `n` entries give, keyed by `key` (a left fold over the log). */
  function StatsOf(logs: seq<LogEntry>, key: LogEntry -> string, n: nat): map<string, KeyStats>
    requires n <= |logs|
  {
    if n == 0 then map[]
    else
      var s := StatsOf(logs, key, n - 1);
      var l := logs[n - 1];
      var cur := if key(l) in s then s[key(l)] else KeyStats(0, 0);
      s[key(l) := KeyStats(cur.count + 1, cur.totalTokens + l.totalTokens)]
  }

  function Counts(s: map<string, KeyStats>): map<string, int>
  {
    map k | k in s :: s[k].count
  }

  function Tokens(s: map<string, KeyStats>): map<string, int>
  {
    map k | k in s :: s[k].totalTokens
  }

  /** The tokens the first `n` entries used. */
  function TokenSum(logs: seq<LogEntry>, n: nat): int
    requires n <= |logs|
  {
    if n == 0 then 0 else TokenSum(logs, n - 1) + logs[n - 1].totalTokens
  }

  /** How many of the first `n` entries have key `k`. */
  function CountKey(logs: seq<LogEntry>, key: LogEntry -> string, k: string, n: nat): nat
    requires n <= |logs|
  {
    if n == 0 then 0 else CountKey(logs, key, k, n - 1) + (if key(logs[n - 1]) == k then 1 else 0)
  }

  /**
   * The statistics partition the log: the counts add up to the number of
   * entries and the token figures to the tokens of all entries, each key
   * counts exactly its own entries, and only keys that occur appear.
   */
  lemma StatsPartition(logs: seq<LogEntry>, key: LogEntry -> string, n: nat)
    requires n <= |logs|
    ensures Total(Counts(StatsOf(logs, key, n))) == n
    ensures Total(Tokens(StatsOf(logs, key, n))) == TokenSum(logs, n)
    ensures forall k :: k in StatsOf(logs, key, n) ==> StatsOf(logs, key, n)[k].count == CountKey(logs, key, k, n) > 0
    ensures forall k :: k !in StatsOf(logs, key, n) ==> CountKey(logs, key, k, n) == 0
  {
    StatsTotals(logs, key, n);
    StatsCountKeys(logs, key, n);
  }

  /** The counts add up to the number of entries, the token figures to their tokens. */
  lemma StatsTotals(logs: seq<LogEntry>, key: LogEntry -> string, n: nat)
    requires n <= |logs|
    ensures Total(Counts(StatsOf(logs, key, n))) == n
    ensures Total(Tokens(StatsOf(logs, key, n))) == TokenSum(logs, n)
  {
    StatsCountTotal(logs, key, n);
    StatsTokenTotal(logs, key, n);
  }

  lemma CountsUpdate(s: map<string, KeyStats>, k: string, v: KeyStats)
    ensures Counts(s[k := v]) == Counts(s)[k := v.count]
  {
  }

  lemma TokensUpdate(s: map<string, KeyStats>, k: string, v: KeyStats)
    ensures Tokens(s[k := v]) == Tokens(s)[k := v.totalTokens]
  {
  }

  lemma {:induction false} StatsCountTotal(logs: seq<LogEntry>, key: LogEntry -> string, n: nat)
    requires n <= |logs|
    ensures Total(Counts(StatsOf(logs, key, n))) == n
  {
    if n > 0 {
      StatsCountTotal(logs, key, n - 1);
      var s := StatsOf(logs, key, n - 1);
      var l := logs[n - 1];
      var cur := if key(l) in s then s[key(l)] else KeyStats(0, 0);
      var v := KeyStats(cur.count + 1, cur.totalTokens + l.totalTokens);
      CountsUpdate(s, key(l), v);
      TotalUpdate(Counts(s), key(l), v.count);
    }
  }

  lemma {:induction false} StatsTokenTotal(logs: seq<LogEntry>, key: LogEntry -> string, n: nat)
    requires n <= |logs|
    ensures Total(Tokens(StatsOf(logs, key, n))) == TokenSum(logs, n)
  {
    if n > 0 {
      StatsTokenTotal(logs, key, n - 1);
      var s := StatsOf(logs, key, n - 1);
      var l := logs[n - 1];
      var cur := if key(l) in s then s[key(l)] else KeyStats(0, 0);
      var v := KeyStats(cur.count + 1, cur.totalTokens + l.totalTokens);
      TokensUpdate(s, key(l), v);
      TotalUpdate(Tokens(s), key(l), v.totalTokens);
    }
  }

  /** Each key counts exactly its own entries, and only keys that occur appear. */
  lemma {:induction false} StatsCountKeys(logs: seq<LogEntry>, key: LogEntry -> string, n: nat)
    requires n <= |logs|
    ensures forall k :: k in StatsOf(logs, key, n) ==> StatsOf(logs, key, n)[k].count == CountKey(logs, key, k, n) > 0
    ensures forall k :: k !in StatsOf(logs, key, n) ==> CountKey(logs, key, k, n) == 0
  {
    if n > 0 {
      StatsCountKeys(logs, key, n - 1);
    }
  }

  /** `AIUsageHistory`. */
  class UsageHistory {
    var logs: seq<LogEntry>

    constructor ()
      ensures logs == []
    {
      logs := [];
    }

    /** `addLog`: append, then keep only the most recent `HistoryCap` entries. */
    method AddLog(entry: LogEntry)
      modifies this
      ensures logs == Recent(old(logs) + [entry], HistoryCap)
      ensures |logs| <= HistoryCap && logs[|logs| - 1] == entry
    {
      logs := logs + [entry];
      if |logs| > HistoryCap {
        logs := logs[|logs| - HistoryCap..];
      }
    }

    /**
     * The grouping loop shared by `statsByRequestType` (key: the request
     * type) and `statsByProvider` (key: the provider).
     */
    method StatsBy(key: LogEntry -> string) returns (stats: map<string, KeyStats>)
      ensures stats == StatsOf(logs, key, |logs|)
    {
      stats := map[];
      var i := 0;
      while i < |logs|
        invariant i <= |logs|
        invariant stats == StatsOf(logs, key, i)
      {
        var l := logs[i];
        var cur := if key(l) in stats then stats[key(l)] else KeyStats(0, 0);
        stats := stats[key(l) := KeyStats(cur.count + 1, cur.totalTokens + l.totalTokens)];
        i := i + 1;
      }
    }

    method StatsByRequestType() returns (stats: map<string, KeyStats>)
      ensures stats == StatsOf(logs, RequestTypeKey, |logs|)
    {
      stats := StatsBy(RequestTypeKey);
    }

    method StatsByProvider() returns (stats: map<string, KeyStats>)
      ensures stats == StatsOf(logs, ProviderKey, |logs|)
    {
      stats := StatsBy(ProviderKey);
    }
  }

  datatype Provider = Gemini | Claude | ChatGPT

  /** A model of a provider; prices and the description are left out. */
  datatype Model = Model(id: string, name: string, provider: Provider)

  /** `availableModels`: every provider offers its own models under distinct identifiers. */
  function AvailableModels(p: Provider): (r: seq<Model>)
    ensures r != []
    ensures forall i :: 0 <= i < |r| ==> r[i].provider == p
    ensures forall i, j :: 0 <= i < j < |r| ==> r[i].id != r[j].id
  {
    match p
    case Gemini => [
      Model("gemini-3-flash", "Gemini 3 Flash", Gemini),
      Model("gemini-2.5-flash", "Gemini 2.5 Flash", Gemini),
      Model("gemini-3-pro", "Gemini 3 Pro", Gemini),
      Model("gemini-2.5-pro", "Gemini 2.5 Pro", Gemini)]
    case Claude => [
      Model("claude-3-5-haiku-20241022", "Claude 3.5 Haiku", Claude),
      Model("claude-3-5-sonnet-20241022", "Claude 3.5 Sonnet", Claude),
      Model("claude-3-opus-20240229", "Claude 3 Opus", Claude)]
    case ChatGPT => [
      Model("gpt-5-mini", "GPT-5 Mini", ChatGPT),
      Model("gpt-5", "GPT-5", ChatGPT),
      Model("gpt-5.1", "GPT-5.1", ChatGPT),
      Model("gpt-5.2", "GPT-5.2", ChatGPT)]
  }

  /** The first model of `models` whose identifier is `id`. */
  function FirstWithId(models: seq<Model>, id: string): (r: Option<Model>)
    ensures r.None? <==> forall i :: 0 <= i < |models| ==> models[i].id != id
    ensures r.Some? ==> (exists i :: 0 <= i < |models| && models[i] == r.value && r.value.id == id
                                     && forall j :: 0 <= j < i ==> models[j].id != id)
  {
    if models == [] then None
    else if models[0].id == id then Some(models[0])
    else
      var r := FirstWithId(models[1..], id);
      assert forall i :: 1 <= i < |models| ==> models[i] == models[1..][i - 1];
      r
  }

  datatype ModelSelection = ModelSelection(provider: Provider, modelId: string)

  /** `getModel`: the selected provider's first model with the selected identifier. */
  function GetModel(sel: ModelSelection): (r: Option<Model>)
    ensures r.Some? ==> r.value.id == sel.modelId && r.value.provider == sel.provider
    ensures r.None? <==> forall m :: m in AvailableModels(sel.provider) ==> m.id != sel.modelId
  {
    var models := AvailableModels(sel.provider);
    var r := FirstWithId(models, sel.modelId);
    assert forall m :: m in models <==> exists i :: 0 <= i < |models| && models[i] == m;
    r
  }

  /** `AIModelPreferences`: the model chosen for each feature. */
  datatype Preferences = Preferences(tagExtraction: ModelSelection, memoArrange: ModelSelection,
                                     categorySummary: ModelSelection)

  const DefaultSelection: ModelSelection := ModelSelection(ChatGPT, "gpt-5-mini")

  /** The default preferences select a model that exists for every feature. */
  function DefaultPreferences(): (p: Preferences)
    ensures GetModel(p.tagExtraction).Some? && GetModel(p.memoArrange).Some?
    ensures GetModel(p.categorySummary).Some?
  {
    assert AvailableModels(ChatGPT)[0].id == DefaultSelection.modelId;
    Preferences(DefaultSelection, DefaultSelection, DefaultSelection)
  }
}
