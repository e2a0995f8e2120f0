/** Cost aggregation over the API cost logs of notion_rag/billing.py.

    A log entry is the parsed JSON line together with the type of the log file it was
    read from; its numeric fields are a map from field name to value. */
module Billing {
  import opened Wrappers
  import opened Strings

  /** One parsed log line: `_log_type`, `timestamp` ("" when absent) and the numeric fields. */
  datatype LogEntry = LogEntry(logType: string, timestamp: string, fields: map<string, real>)

  /** `e.get(key, default)` for a numeric field. */
  function Field(e: LogEntry, key: string, default: real): real {
    if key in e.fields then e.fields[key] else default
  }

  /** The (embedding, vision, query) cost one entry contributes. */
  function EntryCost(e: LogEntry): (c: (real, real, real))
    ensures e.logType !in {"indexing", "query", "sync", "init"} ==> c == (0.0, 0.0, 0.0)
    ensures e.logType == "indexing" ==> c == (Field(e, "embedding_cost", 0.0), Field(e, "vision_cost", 0.0), 0.0)
    ensures e.logType == "query" ==> c == (0.0, 0.0, Field(e, "cost", Field(e, "total_cost", 0.0)))
    ensures e.logType in {"sync", "init"} ==> c == (Field(e, "indexing_cost", 0.0), Field(e, "image_cost", 0.0), 0.0)
  {
    if e.logType == "indexing" then (Field(e, "embedding_cost", 0.0), Field(e, "vision_cost", 0.0), 0.0)
    else if e.logType == "query" then (0.0, 0.0, Field(e, "cost", Field(e, "total_cost", 0.0)))
    else if e.logType == "sync" || e.logType == "init" then (Field(e, "indexing_cost", 0.0), Field(e, "image_cost", 0.0), 0.0)
    else (0.0, 0.0, 0.0)
  }

  function Add(a: (real, real, real), b: (real, real, real)): (real, real, real) {
    (a.0 + b.0, a.1 + b.1, a.2 + b.2)
  }

  /** The cost triple of each entry, in log order. */
  function Costs(entries: seq<LogEntry>): (cs: seq<(real, real, real)>)
    ensures |cs| == |entries|
  {
    seq(|entries|, i requires 0 <= i < |entries| => EntryCost(entries[i]))
  }

  /** Component-wise sum of cost triples, left to right. */
  function Sum(cs: seq<(real, real, real)>): (real, real, real) {
    if |cs| == 0 then (0.0, 0.0, 0.0) else Add(Sum(cs[..|cs| - 1]), cs[|cs| - 1])
  }

  /** The three running sums after all entries, in order. */
  function SumCosts(entries: seq<LogEntry>): (real, real, real) {
    Sum(Costs(entries))
  }

  /** The totals `_aggregate_total` reports. */
  datatype Totals = Totals(embeddingCost: real, visionCost: real, queryCost: real, totalCost: real)

  function TotalOf(entries: seq<LogEntry>): (t: Totals)
    ensures t.totalCost == t.embeddingCost + t.visionCost + t.queryCost
  {
    var c := SumCosts(entries);
    Totals(c.0, c.1, c.2, c.0 + c.1 + c.2)
  }

  lemma {:induction false} SumAppend(cs: seq<(real, real, real)>, ds: seq<(real, real, real)>)
    ensures Sum(cs + ds) == Add(Sum(cs), Sum(ds))
  {
    if |ds| == 0 {
      assert cs + ds == cs;
    } else {
      assert (cs + ds)[..|cs + ds| - 1] == cs + ds[..|ds| - 1];
      SumAppend(cs, ds[..|ds| - 1]);
    }
  }

  /** The sums split over consecutive parts of the log. */
  lemma SumCostsAppend(a: seq<LogEntry>, b: seq<LogEntry>)
    ensures SumCosts(a + b) == Add(SumCosts(a), SumCosts(b))
  {
    assert Costs(a + b) == Costs(a) + Costs(b);
    SumAppend(Costs(a), Costs(b));
  }

  /** One more entry adds its own cost triple. */
  lemma SumCostsSnoc(entries: seq<LogEntry>, e: LogEntry)
    ensures SumCosts(entries + [e]) == Add(SumCosts(entries), EntryCost(e))
  {
    assert Costs(entries + [e]) == Costs(entries) + [EntryCost(e)];
  }

  /** An `indexing` entry adds its `embedding_cost` and `vision_cost` (0 when absent). */
  lemma IndexingEntryAdds(entries: seq<LogEntry>, e: LogEntry)
    requires e.logType == "indexing"
    ensures var t, t' := TotalOf(entries), TotalOf(entries + [e]);
            t'.embeddingCost == t.embeddingCost + Field(e, "embedding_cost", 0.0)
            && t'.visionCost == t.visionCost + Field(e, "vision_cost", 0.0)
            && t'.queryCost == t.queryCost
  {
    SumCostsSnoc(entries, e);
  }

  /** A `query` entry adds its `cost`, or its `total_cost` when it has no `cost`. */
  lemma QueryEntryAdds(entries: seq<LogEntry>, e: LogEntry)
    requires e.logType == "query"
    ensures var t, t' := TotalOf(entries), TotalOf(entries + [e]);
            t'.embeddingCost == t.embeddingCost && t'.visionCost == t.visionCost
            && t'.queryCost == t.queryCost + Field(e, "cost", Field(e, "total_cost", 0.0))
  {
    SumCostsSnoc(entries, e);
  }

  /** A `sync` or `init` entry adds its `indexing_cost` to the embedding total and its
      `image_cost` to the vision total. */
  lemma RunEntryAdds(entries: seq<LogEntry>, e: LogEntry)
    requires e.logType == "sync" || e.logType == "init"
    ensures var t, t' := TotalOf(entries), TotalOf(entries + [e]);
            t'.embeddingCost == t.embeddingCost + Field(e, "indexing_cost", 0.0)
            && t'.visionCost == t.visionCost + Field(e, "image_cost", 0.0)
            && t'.queryCost == t.queryCost
  {
    SumCostsSnoc(entries, e);
  }

  /** An entry of any other log type changes no total. */
  lemma OtherLogIgnored(entries: seq<LogEntry>, e: LogEntry)
    requires e.logType !in {"indexing", "query", "sync", "init"}
    ensures TotalOf(entries + [e]) == TotalOf(entries)
  {
    assert SumCosts(entries + [e]) == SumCosts(entries) by {
      SumCostsSnoc(entries, e);
      assert EntryCost(e) == (0.0, 0.0, 0.0);
    }
  }

  /** A query entry's `cost` takes precedence over its `total_cost`. */
  lemma QueryCostPrecedence(e: LogEntry)
    requires e.logType == "query"
    ensures "cost" in e.fields ==> EntryCost(e).2 == e.fields["cost"]
    ensures "cost" !in e.fields && "total_cost" in e.fields ==> EntryCost(e).2 == e.fields["total_cost"]
    ensures "cost" !in e.fields && "total_cost" !in e.fields ==> EntryCost(e).2 == 0.0
  {
  }

  /** `_aggregate_total`. */
  method AggregateTotal(entries: seq<LogEntry>) returns (t: Totals)
    ensures t == TotalOf(entries)
  {
    var embeddingCost, visionCost, queryCost := 0.0, 0.0, 0.0;
    for i := 0 to |entries|
      invariant (embeddingCost, visionCost, queryCost) == SumCosts(entries[..i])
    {
      assert entries[..i + 1] == entries[..i] + [entries[i]];
      SumCostsSnoc(entries[..i], entries[i]);
      var e := entries[i];
      if e.logType == "indexing" {
        embeddingCost := embeddingCost + Field(e, "embedding_cost", 0.0);
        visionCost := visionCost + Field(e, "vision_cost", 0.0);
      } else if e.logType == "query" {
        queryCost := queryCost + Field(e, "cost", Field(e, "total_cost", 0.0));
      } else if e.logType == "sync" || e.logType == "init" {
        embeddingCost := embeddingCost + Field(e, "indexing_cost", 0.0);
        visionCost := visionCost + Field(e, "image_cost", 0.0);
      }
    }
    assert entries[..|entries|] == entries;
    t := Totals(embeddingCost, visionCost, queryCost, embeddingCost + visionCost + queryCost);
  }

  // ---------------------------------------------------------------------------
  // Breakdown by period
  // ---------------------------------------------------------------------------

  /** The period key of a timestamp: its first `keyLen` characters. */
  function PeriodKey(timestamp: string, keyLen: nat): string {
    Take(timestamp, keyLen)
  }

  /** The entries `_aggregate_by` files under `key`: those with a timestamp whose key is
      `key`, in log order. */
  function InPeriod(entries: seq<LogEntry>, keyLen: nat, key: string): (r: seq<LogEntry>)
    ensures |r| <= |entries|
    ensures forall e :: e in r ==> e in entries && e.timestamp != "" && PeriodKey(e.timestamp, keyLen) == key
  {
    if |entries| == 0 then []
    else
      var n := |entries|;
      var e := entries[n - 1];
      InPeriod(entries[..n - 1], keyLen, key) + (if e.timestamp != "" && PeriodKey(e.timestamp, keyLen) == key then [e] else [])
  }

  /** The `groups` dictionary after the entries, in order. */
  function Groups(entries: seq<LogEntry>, keyLen: nat): map<string, seq<LogEntry>> {
    if |entries| == 0 then map[]
    else
      var n := |entries|;
      var groups := Groups(entries[..n - 1], keyLen);
      var e := entries[n - 1];
      if e.timestamp == "" then groups
      else
        var key := PeriodKey(e.timestamp, keyLen);
        groups[key := (if key in groups then groups[key] else []) + [e]]
  }

  /** Each group holds exactly the entries of its period, in order; the keys are exactly
      the periods of the entries that have a timestamp. */
  lemma {:induction false} GroupsArePeriods(entries: seq<LogEntry>, keyLen: nat, key: string)
    ensures key in Groups(entries, keyLen) <==> InPeriod(entries, keyLen, key) != []
    ensures key in Groups(entries, keyLen) ==> Groups(entries, keyLen)[key] == InPeriod(entries, keyLen, key)
  {
    if |entries| > 0 {
      GroupsArePeriods(entries[..|entries| - 1], keyLen, key);
    }
  }

  /** One entry of the breakdown. */
  datatype Period = Period(period: string, totals: Totals)

  /** One period per key of `groups`, in ascending key order, with the totals of its group. */
  function Rows(groups: map<string, seq<LogEntry>>): seq<Period>
  {
    var keys := SortedSet(groups.Keys);
    seq(|keys|, i requires 0 <= i < |keys| => Period(keys[i], TotalOf(groups[keys[i]])))
  }

  /** The breakdown: one period per key, in ascending key order. */
  function Breakdown(entries: seq<LogEntry>, keyLen: nat): seq<Period>
  {
    Rows(Groups(entries, keyLen))
  }

  /** The breakdown has one row per period that has timestamped entries, in strictly
      ascending order, and each row totals exactly the entries of its period. */
  lemma BreakdownRows(entries: seq<LogEntry>, keyLen: nat)
    ensures var r := Breakdown(entries, keyLen);
            (forall i, j :: 0 <= i < j < |r| ==> Less(r[i].period, r[j].period))
            && (forall i :: 0 <= i < |r| ==> r[i].totals == TotalOf(InPeriod(entries, keyLen, r[i].period)))
            && (forall i :: 0 <= i < |r| ==> InPeriod(entries, keyLen, r[i].period) != [])
  {
    var r := Breakdown(entries, keyLen);
    forall i | 0 <= i < |r|
      ensures r[i].totals == TotalOf(InPeriod(entries, keyLen, r[i].period))
      ensures InPeriod(entries, keyLen, r[i].period) != []
    {
      GroupsArePeriods(entries, keyLen, r[i].period);
    }
  }

  /** Every period with a timestamped entry has its row. */
  lemma BreakdownComplete(entries: seq<LogEntry>, keyLen: nat, k: nat)
    requires k < |entries| && entries[k].timestamp != ""
    ensures exists i :: 0 <= i < |Breakdown(entries, keyLen)| && Breakdown(entries, keyLen)[i].period == PeriodKey(entries[k].timestamp, keyLen)
  {
    var key := PeriodKey(entries[k].timestamp, keyLen);
    InPeriodHas(entries, keyLen, k);
    GroupsArePeriods(entries, keyLen, key);
    var keys := SortedSet(Groups(entries, keyLen).Keys);
    var i :| 0 <= i < |keys| && keys[i] == key;
    assert Breakdown(entries, keyLen)[i].period == key;
  }

  lemma {:induction false} InPeriodHas(entries: seq<LogEntry>, keyLen: nat, k: nat)
    requires k < |entries| && entries[k].timestamp != ""
    ensures InPeriod(entries, keyLen, PeriodKey(entries[k].timestamp, keyLen)) != []
  {
    var n := |entries|;
    var init := entries[..n - 1];
    var key := PeriodKey(entries[k].timestamp, keyLen);
    var e := entries[n - 1];
    var last := if e.timestamp != "" && PeriodKey(e.timestamp, keyLen) == key then [e] else [];
    assert InPeriod(entries, keyLen, key) == InPeriod(init, keyLen, key) + last;
    if k < n - 1 {
      assert init[k] == entries[k];
      InPeriodHas(init, keyLen, k);
    } else {
      assert last == [e];
    }
  }

  /** An entry without a timestamp appears in no period. */
  lemma UntimedDropped(entries: seq<LogEntry>, e: LogEntry, keyLen: nat)
    requires e.timestamp == ""
    ensures Groups(entries + [e], keyLen) == Groups(entries, keyLen)
    ensures Breakdown(entries + [e], keyLen) == Breakdown(entries, keyLen)
  {
    assert (entries + [e])[..|entries|] == entries;
  }

  /** The grouping loop of `_aggregate_by`. */
  method GroupEntries(entries: seq<LogEntry>, keyLen: nat) returns (groups: map<string, seq<LogEntry>>)
    ensures groups == Groups(entries, keyLen)
  {
    groups := map[];
    for i := 0 to |entries|
      invariant groups == Groups(entries[..i], keyLen)
    {
      assert entries[..i + 1][..i] == entries[..i];
      var ts := entries[i].timestamp;
      if ts != "" {
        var key := PeriodKey(ts, keyLen);
        var group := if key in groups then groups[key] else [];
        groups := groups[key := group + [entries[i]]];
      }
    }
    assert entries[..|entries|] == entries;
  }

  /** The row loop of `_aggregate_by`, over the sorted keys. */
  method PeriodRows(groups: map<string, seq<LogEntry>>) returns (rows: seq<Period>)
    ensures rows == Rows(groups)
  {
    var keys := SortedSet(groups.Keys);
    rows := [];
    for i := 0 to |keys|
      invariant |rows| == i
      invariant forall j :: 0 <= j < i ==> rows[j] == Period(keys[j], TotalOf(groups[keys[j]]))
    {
      var agg := AggregateTotal(groups[keys[i]]);
      rows := rows + [Period(keys[i], agg)];
    }
  }

  /** `_aggregate_by` for a key of the first `keyLen` characters. */
  method AggregateBy(entries: seq<LogEntry>, keyLen: nat) returns (result: seq<Period>)
    ensures result == Breakdown(entries, keyLen)
  {
    var groups := GroupEntries(entries, keyLen);
    result := PeriodRows(groups);
  }

  // ---------------------------------------------------------------------------
  // get_billing
  // ---------------------------------------------------------------------------

  /** What `get_billing` returns. */
  datatype Report = Report(total: Totals, breakdown: seq<Period>)

  /** Daily keys are `YYYY-MM-DD`, monthly keys `YYYY-MM`. */
  const DailyKeyLen: nat := 10
  const MonthlyKeyLen: nat := 7

  /** `get_billing` after the logs are read: the dispatch on `period`. */
  function GetBilling(entries: seq<LogEntry>, period: string): (r: Result<Report>)
    ensures r.Ok? <==> period in {"total", "daily", "monthly"}
    ensures r.Ok? ==> r.value.total == TotalOf(entries)
    ensures period == "total" ==> r.Ok? && r.value.breakdown == []
    ensures period == "daily" ==> r.Ok? && r.value.breakdown == Breakdown(entries, DailyKeyLen)
    ensures period == "monthly" ==> r.Ok? && r.value.breakdown == Breakdown(entries, MonthlyKeyLen)
    ensures r.Err? ==> r.error == "Invalid period: " + period + ". Use 'total', 'daily', or 'monthly'."
  {
    if period == "total" then Ok(Report(TotalOf(entries), []))
    else if period == "daily" then Ok(Report(TotalOf(entries), Breakdown(entries, DailyKeyLen)))
    else if period == "monthly" then Ok(Report(TotalOf(entries), Breakdown(entries, MonthlyKeyLen)))
    else Err("Invalid period: " + period + ". Use 'total', 'daily', or 'monthly'.")
  }

  /** Monthly rows are coarser than daily ones: every daily key extends a monthly key. */
  lemma DailyRefinesMonthly(entries: seq<LogEntry>, i: nat)
    requires i < |Breakdown(entries, DailyKeyLen)|
    ensures exists j :: 0 <= j < |Breakdown(entries, MonthlyKeyLen)|
              && StartsWith(Breakdown(entries, DailyKeyLen)[i].period, Breakdown(entries, MonthlyKeyLen)[j].period)
  {
    var day := Breakdown(entries, DailyKeyLen)[i].period;
    var k := EntryOfRow(entries, DailyKeyLen, i);
    BreakdownComplete(entries, MonthlyKeyLen, k);
    KeyPrefix(entries[k].timestamp);
  }

  /** Every row comes from a timestamped entry of its period. */
  lemma EntryOfRow(entries: seq<LogEntry>, keyLen: nat, i: nat) returns (k: nat)
    requires i < |Breakdown(entries, keyLen)|
    ensures k < |entries| && entries[k].timestamp != ""
    ensures PeriodKey(entries[k].timestamp, keyLen) == Breakdown(entries, keyLen)[i].period
  {
    var key := Breakdown(entries, keyLen)[i].period;
    BreakdownRows(entries, keyLen);
    var inKey := InPeriod(entries, keyLen, key);
    assert inKey[0] in inKey;
    k :| 0 <= k < |entries| && entries[k] == inKey[0];
  }

  /** A month key is a prefix of the day key of the same timestamp. */
  lemma KeyPrefix(timestamp: string)
    ensures StartsWith(PeriodKey(timestamp, DailyKeyLen), PeriodKey(timestamp, MonthlyKeyLen))
  {
    assert Take(timestamp, 10)[..|Take(timestamp, 7)|] == Take(timestamp, 7);
  }
}
