/** The Go Lambda handler: a process-global memory cache in front of the
    DynamoDB table, in front of the upstream client. */
module GoHandler {
  import opened Common
  import opened Store
  import opened GoRankings

  /** Everything one invocation reads from outside the process: today's
      date, the environment variables, the outcome of each table call, whether
      attribute (un)marshalling succeeds, and the upstream replies. */
  datatype Invocation = Invocation(
    today: string,
    tableName: string,
    get: StoreOutcome,
    unmarshals: bool,
    userID: string,
    token: string,
    replies: Replies,
    sentinelPut: StoreOutcome,
    marshals: bool,
    put: StoreOutcome)

  /** The two `for k, v := range src` loops of the handler: `base` with every
      field of `src` inserted, `src` winning on a shared key. */
  method Merge(base: Item, src: Item) returns (r: Item)
    ensures r.Keys == base.Keys + src.Keys
    ensures forall k :: k in src ==> r[k] == src[k]
    ensures forall k :: k in base && k !in src ==> r[k] == base[k]
  {
    r := base;
    var todo := src.Keys;
    while todo != {}
      invariant todo <= src.Keys
      invariant r.Keys == base.Keys + (src.Keys - todo)
      invariant forall k :: k in src.Keys - todo ==> r[k] == src[k]
      invariant forall k :: k in base && k !in src.Keys - todo ==> r[k] == base[k]
      decreases todo
    {
      var k :| k in todo;
      r := r[k := src[k]];
      todo := todo - {k};
    }
  }

  /** Today's item is present and decodes: the handler serves it. */
  ghost predicate StoreHit(inv: Invocation, items: map<string, Item>)
  {
    inv.get.Success? && inv.today in items && inv.unmarshals
  }

  /** The process. `dataCache` lives as long as the process does. */
  class Handler {
    /** The in-memory cache; an empty map counts as no cache. */
    var dataCache: Item
    /** Every upstream request this process issued, in order. */
    ghost var requests: seq<Endpoint>

    /** A fresh process starts with an empty cache (`init`). */
    constructor ()
      ensures dataCache == map[] && requests == []
    {
      dataCache := map[];
      requests := [];
    }

    /** `handler`: memory cache, then table read, then upstream fetch, then
        table write and cache update. */
    method Handle(table: Table, inv: Invocation) returns (result: Item)
      modifies this, table
      // memory-cache hit: a copy of the cache, and nothing else happens
      ensures |old(dataCache)| != 0 ==>
        && result == old(dataCache) && dataCache == old(dataCache) && requests == old(requests)
        && table.items == old(table.items) && table.log == old(table.log)
      // no table configured: an error, and nothing else happens
      ensures |old(dataCache)| == 0 && inv.tableName == "" ==>
        && result == ErrorMap("TABLE_NAME not configured")
        && dataCache == old(dataCache) && requests == old(requests)
        && table.items == old(table.items) && table.log == old(table.log)
      // the read fails: an error with detail; the cache stays empty, so the next call reads again
      ensures |old(dataCache)| == 0 && inv.tableName != "" && inv.get.Fault? ==>
        && result == ErrorDetailMap("Database lookup failed", inv.get.detail)
        && dataCache == old(dataCache) && requests == old(requests)
        && table.items == old(table.items) && table.log == old(table.log) + [Read(inv.today)]
      // the read finds an item that decodes: it becomes the cache, date key included, and is returned
      ensures |old(dataCache)| == 0 && inv.tableName != "" && StoreHit(inv, old(table.items)) ==>
        && result == old(table.items)[inv.today] && dataCache == result && requests == old(requests)
        && table.items == old(table.items) && table.log == old(table.log) + [Read(inv.today)]
      // otherwise the upstream client runs
      ensures |old(dataCache)| == 0 && inv.tableName != "" && inv.get.Success? && !StoreHit(inv, old(table.items)) ==>
        var fetched := Rankings(inv.userID, inv.token, inv.replies);
        var stamped := if fetched.Ok? then Stamped(inv.today, fetched.value) else Sentinel(inv.today);
        && requests == old(requests) + RequestsIssued(inv.userID, inv.token, inv.replies)
        // fetch failed: best-effort sentinel write, error message, cache untouched
        && (fetched.Err? ==>
              && result == ErrorMap(fetched.error) && dataCache == old(dataCache)
              && table.log == old(table.log) + [Read(inv.today)] + [Write(inv.today, Sentinel(inv.today))]
              && table.items == (if inv.sentinelPut.Success?
                                 then old(table.items)[inv.today := Sentinel(inv.today)]
                                 else old(table.items)))
        // fetched, but the item does not marshal: error, nothing written
        && (fetched.Ok? && !inv.marshals ==>
              && result == ErrorMap("Error marshalling item") && dataCache == old(dataCache)
              && table.items == old(table.items) && table.log == old(table.log) + [Read(inv.today)])
        // fetched, the write fails: error with detail, cache untouched
        && (fetched.Ok? && inv.marshals && inv.put.Fault? ==>
              && result == ErrorDetailMap("Error writing item to DynamoDB", inv.put.detail)
              && dataCache == old(dataCache) && table.items == old(table.items)
              && table.log == old(table.log) + [Read(inv.today)] + [Write(inv.today, stamped)])
        // fetched and written: the table holds date + stats, the cache and result hold the stats
        && (fetched.Ok? && inv.marshals && inv.put.Success? ==>
              && result == fetched.value && dataCache == fetched.value
              && table.items == old(table.items)[inv.today := stamped]
              && table.log == old(table.log) + [Read(inv.today)] + [Write(inv.today, stamped)])
      // the cache changes only from empty, and only to the value returned
      ensures dataCache == old(dataCache) || (|old(dataCache)| == 0 && dataCache == result)
    {
      if |dataCache| != 0 {
        var res := Merge(map[], dataCache);
        assert res == dataCache;
        return res;
      }

      var today := inv.today;
      if inv.tableName == "" {
        return ErrorMap("TABLE_NAME not configured");
      }

      var got := table.GetItem(today, inv.get);
      if got.GetFailed? {
        return ErrorDetailMap("Database lookup failed", got.detail);
      }
      if got.Found? && inv.unmarshals {
        dataCache := got.item;
        return got.item;
      }

      result := Refresh(table, inv);
    }

    /** The cache-miss tail of `handler`: fetch from upstream, write the
        sentinel or the stamped stats to the table, and on success fill the
        cache. */
    method Refresh(table: Table, inv: Invocation) returns (result: Item)
      modifies this, table
      ensures var fetched := Rankings(inv.userID, inv.token, inv.replies);
        var stamped := if fetched.Ok? then Stamped(inv.today, fetched.value) else Sentinel(inv.today);
        && requests == old(requests) + RequestsIssued(inv.userID, inv.token, inv.replies)
        && (fetched.Err? ==>
              && result == ErrorMap(fetched.error) && dataCache == old(dataCache)
              && table.log == old(table.log) + [Write(inv.today, Sentinel(inv.today))]
              && table.items == (if inv.sentinelPut.Success?
                                 then old(table.items)[inv.today := Sentinel(inv.today)]
                                 else old(table.items)))
        && (fetched.Ok? && !inv.marshals ==>
              && result == ErrorMap("Error marshalling item") && dataCache == old(dataCache)
              && table.items == old(table.items) && table.log == old(table.log))
        && (fetched.Ok? && inv.marshals && inv.put.Fault? ==>
              && result == ErrorDetailMap("Error writing item to DynamoDB", inv.put.detail)
              && dataCache == old(dataCache) && table.items == old(table.items)
              && table.log == old(table.log) + [Write(inv.today, stamped)])
        && (fetched.Ok? && inv.marshals && inv.put.Success? ==>
              && result == fetched.value && dataCache == fetched.value
              && table.items == old(table.items)[inv.today := stamped]
              && table.log == old(table.log) + [Write(inv.today, stamped)])
    {
      var today := inv.today;
      var info, calls := GetRankingsFromHTB(inv.userID, inv.token, inv.replies);
      requests := requests + calls;
      if info.Err? {
        var _ := table.PutItem(today, Sentinel(today), inv.sentinelPut);
        return ErrorMap(info.error);
      }

      result := Persist(table, today, info.value, inv.marshals, inv.put);
    }

    /** The success tail of `handler`: marshal date plus `info`, write it,
        and only once the write succeeded cache and return `info`. */
    method Persist(table: Table, today: string, info: Item, marshals: bool, put: StoreOutcome)
      returns (result: Item)
      modifies this, table
      ensures !marshals ==>
        && result == ErrorMap("Error marshalling item") && dataCache == old(dataCache)
        && table.items == old(table.items) && table.log == old(table.log)
      ensures marshals && put.Fault? ==>
        && result == ErrorDetailMap("Error writing item to DynamoDB", put.detail)
        && dataCache == old(dataCache) && table.items == old(table.items)
        && table.log == old(table.log) + [Write(today, Stamped(today, info))]
      ensures marshals && put.Success? ==>
        && result == info && dataCache == info
        && table.items == old(table.items)[today := Stamped(today, info)]
        && table.log == old(table.log) + [Write(today, Stamped(today, info))]
      ensures requests == old(requests)
    {
      var itemToStore := Merge(map[DateKey := Str(today)], info);
      assert itemToStore == Stamped(today, info);
      if !marshals {
        return ErrorMap("Error marshalling item");
      }
      var err := table.PutItem(today, itemToStore, put);
      if err.Some? {
        return ErrorDetailMap("Error writing item to DynamoDB", err.value);
      }

      dataCache := info;
      result := info;
    }
  }

  /** A warm process answering a sequence of invocations in turn. An
      invocation that leaves the cache non-empty returns the cached map, and
      every later invocation returns that same map and issues no upstream
      request and no table access.
      `caches`, `requestLogs` and `tableLogs` record the state after each
      invocation. */
  method Serve(h: Handler, table: Table, invs: seq<Invocation>)
    returns (results: seq<Item>, ghost caches: seq<Item>, ghost requestLogs: seq<seq<Endpoint>>,
             ghost tableLogs: seq<seq<Access>>)
    modifies h, table
    ensures |results| == |caches| == |requestLogs| == |tableLogs| == |invs|
    ensures |old(h.dataCache)| != 0 ==>
      forall i :: 0 <= i < |invs| ==> results[i] == old(h.dataCache) && caches[i] == old(h.dataCache)
    ensures |old(h.dataCache)| != 0 ==> h.requests == old(h.requests) && table.log == old(table.log)
    ensures forall i :: 0 <= i < |invs| && |caches[i]| != 0 ==> results[i] == caches[i]
    ensures forall i, j :: 0 <= i < j < |invs| && |caches[i]| != 0 ==>
      && results[j] == caches[i] && caches[j] == caches[i]
      && requestLogs[j] == requestLogs[i] && tableLogs[j] == tableLogs[i]
  {
    results, caches, requestLogs, tableLogs := [], [], [], [];
    var n := 0;
    while n < |invs|
      invariant 0 <= n <= |invs|
      invariant |results| == |caches| == |requestLogs| == |tableLogs| == n
      invariant n > 0 ==> caches[n - 1] == h.dataCache && requestLogs[n - 1] == h.requests && tableLogs[n - 1] == table.log
      invariant |old(h.dataCache)| != 0 ==>
        && h.dataCache == old(h.dataCache) && h.requests == old(h.requests) && table.log == old(table.log)
        && forall i :: 0 <= i < n ==> results[i] == old(h.dataCache) && caches[i] == old(h.dataCache)
      invariant forall i :: 0 <= i < n && |caches[i]| != 0 ==> results[i] == caches[i]
      invariant forall i, j :: 0 <= i < j < n && |caches[i]| != 0 ==>
        && results[j] == caches[i] && caches[j] == caches[i]
        && requestLogs[j] == requestLogs[i] && tableLogs[j] == tableLogs[i]
    {
      var r := h.Handle(table, invs[n]);
      results, caches := results + [r], caches + [h.dataCache];
      requestLogs, tableLogs := requestLogs + [h.requests], tableLogs + [table.log];
      n := n + 1;
    }
  }
}

/** Same-day persistence across processes. */
module GoReplay {
  import opened Common
  import opened Store
  import opened GoRankings
  import opened GoHandler

  /** Two fresh processes invoked one after the other on the same day,
      against a table with no item for that day. Whatever the first persists
      is served to the second as it is stored, date key included, and the
      second issues no upstream request: a failed fetch silences itself for
      the day through the sentinel, a successful one is served from the
      table. */
  method ColdStartsSameDay(table: Table, first: Invocation, second: Invocation)
    returns (r1: Item, r2: Item, ghost requests2: seq<Endpoint>)
    modifies table
    ensures
      var fetched := Rankings(first.userID, first.token, first.replies);
      first.today == second.today && first.today !in old(table.items) &&
      first.tableName != "" && second.tableName != "" &&
      first.get.Success? && second.get.Success? && second.unmarshals ==>
        && (fetched.Err? && first.sentinelPut.Success? ==>
              r1 == ErrorMap(fetched.error) && r2 == Sentinel(first.today) && requests2 == [])
        && (fetched.Ok? && first.marshals && first.put.Success? ==>
              && r1 == fetched.value && r2 == Stamped(first.today, fetched.value)
              && r2 - {DateKey} == r1 && requests2 == [])
  {
    var p1 := new Handler();
    r1 := p1.Handle(table, first);
    var p2 := new Handler();
    r2 := p2.Handle(table, second);
    requests2 := p2.requests;
  }
}
