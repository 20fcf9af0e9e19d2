/** The read calls of the API client (internal/client/client.go): endpoint
    assembly, the envelope's embedded error code, and the client-side
    truncation of list results. The HTTP request together with JSON decoding
    is a parameter `fetch` from endpoint to decoded envelope; Go's timestamp
    formatting and url.Values encoding are parameters too. */
module Client {
  import opened Wrappers
  import opened JsonValue

  /** Why a call failed. Transport failures, non-200 statuses and bodies
      that do not decode arise inside `fetch`, which reports them as a
      message, and become RequestFailed; only a decoded envelope whose `err`
      is not 0 becomes ApiErrorCode. */
  datatype ClientError =
    | RequestFailed(reason: string)
    | ApiErrorCode(code: int)

  /** An item as the API returns it; `id` is the text of the JSON number or
      string it was decoded from. */
  datatype RawItem = RawItem(
    id: string, counter: int, title: string, level: string, status: string,
    environment: string, totalOccurrences: int,
    lastOccurrenceTimestamp: int, firstOccurrenceTimestamp: int)

  /** An item as the client returns it, with formatted timestamps. */
  datatype Item = Item(
    id: string, counter: int, title: string, level: string, status: string,
    environment: string, totalOccurrences: int,
    lastOccurrence: string, firstOccurrence: string)

  /** An occurrence as the API returns it. */
  datatype RawOccurrence = RawOccurrence(id: int, itemId: string, timestamp: int, data: map<string, Json>)

  /** An occurrence as the client returns it, with a formatted timestamp. */
  datatype Occurrence = Occurrence(id: int, itemId: string, timestamp: string, data: map<string, Json>)

  datatype ItemsResponse = ItemsResponse(err: int, items: seq<RawItem>)
  datatype ItemResponse = ItemResponse(err: int, result: RawItem)
  datatype OccurrencesResponse = OccurrencesResponse(err: int, instances: seq<RawOccurrence>)
  datatype OccurrenceResponse = OccurrenceResponse(err: int, result: RawOccurrence)

  /** The field-by-field conversion of an item. */
  function ToItem(raw: RawItem, formatTimestamp: int -> string): Item
  {
    Item(raw.id, raw.counter, raw.title, raw.level, raw.status, raw.environment,
         raw.totalOccurrences, formatTimestamp(raw.lastOccurrenceTimestamp),
         formatTimestamp(raw.firstOccurrenceTimestamp))
  }

  /** The field-by-field conversion of an occurrence. */
  function ToOccurrence(raw: RawOccurrence, formatTimestamp: int -> string): Occurrence
  {
    Occurrence(raw.id, raw.itemId, formatTimestamp(raw.timestamp), raw.data)
  }

  /** How many of `n` entries a list call keeps for `limit`. */
  ghost function Kept(limit: int, n: nat): (k: nat)
    ensures k <= n && (limit > 0 ==> k <= limit)
    ensures limit <= 0 ==> k == 0
    ensures limit > 0 ==> (k == n || k == limit)
  {
    if limit <= 0 then 0 else if limit < n then limit else n
  }

  // ---------------------------------------------------------------------
  // The items endpoint

  /** The query parameters of the items call: each of the three filters
      whose value is not empty, under its parameter name. */
  ghost function NonEmptyFilters(status: string, level: string, env: string): map<string, string>
  {
    var given := map["status" := status, "level" := level, "environment" := env];
    map k | k in given && given[k] != "" :: given[k]
  }

  /** The items endpoint: "/items", followed by "?" and the encoded query
      only when some filter is set. */
  ghost function ItemsPath(status: string, level: string, env: string,
                     encode: map<string, string> -> string): string
  {
    var params := NonEmptyFilters(status, level, env);
    if |params| > 0 then "/items" + "?" + encode(params) else "/items"
  }

  /** The query holds a filter exactly when its value is not empty, and it
      is empty exactly when all three filters are. */
  lemma NonEmptyFiltersExact(status: string, level: string, env: string)
    ensures var p := NonEmptyFilters(status, level, env);
      && p.Keys <= {"status", "level", "environment"}
      && ("status" in p <==> status != "") && ("status" in p ==> p["status"] == status)
      && ("level" in p <==> level != "") && ("level" in p ==> p["level"] == level)
      && ("environment" in p <==> env != "") && ("environment" in p ==> p["environment"] == env)
      && (|p| > 0 <==> status != "" || level != "" || env != "")
  {
  }

  /** A map that holds exactly the non-empty filters is the query. */
  lemma FiltersByKey(params: map<string, string>, status: string, level: string, env: string)
    requires params.Keys <= {"status", "level", "environment"}
    requires ("status" in params <==> status != "") && ("status" in params ==> params["status"] == status)
    requires ("level" in params <==> level != "") && ("level" in params ==> params["level"] == level)
    requires ("environment" in params <==> env != "") && ("environment" in params ==> params["environment"] == env)
    ensures params == NonEmptyFilters(status, level, env)
  {
  }

  /** The parameter assembly at the top of GetItems. */
  method BuildItemsEndpoint(status: string, level: string, env: string,
                            encode: map<string, string> -> string)
    returns (endpoint: string)
    ensures endpoint == ItemsPath(status, level, env, encode)
  {
    var params: map<string, string> := map[];
    if status != "" {
      params := params["status" := status];
    }
    if level != "" {
      params := params["level" := level];
    }
    if env != "" {
      params := params["environment" := env];
    }
    FiltersByKey(params, status, level, env);
    endpoint := "/items";
    if |params| > 0 {
      endpoint := endpoint + "?" + encode(params);
    }
  }

  // ---------------------------------------------------------------------
  // The calls

  /** GetItems: the filtered list of items, cut to the first `limit`
      entries in the order received. */
  method GetItems(limit: int, status: string, level: string, env: string,
                  encode: map<string, string> -> string,
                  fetch: string -> Result<ItemsResponse, string>,
                  formatTimestamp: int -> string)
    returns (r: Result<seq<Item>, ClientError>)
    ensures var fetched := fetch(ItemsPath(status, level, env, encode));
      && (fetched.Failure? ==> r == Failure(RequestFailed(fetched.error)))
      && (r.Failure? && r.error.ApiErrorCode? <==> fetched.Success? && fetched.value.err != 0)
      && (fetched.Success? && fetched.value.err != 0 ==> r == Failure(ApiErrorCode(fetched.value.err)))
      && (fetched.Success? && fetched.value.err == 0 ==>
            r.Success? && |r.value| == Kept(limit, |fetched.value.items|)
            && forall k :: 0 <= k < |r.value| ==>
                 r.value[k] == ToItem(fetched.value.items[k], formatTimestamp))
  {
    var endpoint := BuildItemsEndpoint(status, level, env, encode);
    var fetched := fetch(endpoint);
    if fetched.Failure? {
      return Failure(RequestFailed(fetched.error));
    }
    var resp := fetched.value;
    if resp.err != 0 {
      return Failure(ApiErrorCode(resp.err));
    }
    var items: seq<Item> := [];
    var i := 0;
    while i < |resp.items|
      invariant 0 <= i <= |resp.items|
      invariant i == |items|
      invariant i == 0 || i <= limit
      invariant forall k :: 0 <= k < i ==> items[k] == ToItem(resp.items[k], formatTimestamp)
    {
      if i >= limit {
        break;
      }
      items := items + [ToItem(resp.items[i], formatTimestamp)];
      i := i + 1;
    }
    return Success(items);
  }

  /** GetItem: one item by id. */
  method GetItem(itemId: string,
                 fetch: string -> Result<ItemResponse, string>,
                 formatTimestamp: int -> string)
    returns (r: Result<Item, ClientError>)
    ensures var fetched := fetch("/item/" + itemId);
      && (fetched.Failure? ==> r == Failure(RequestFailed(fetched.error)))
      && (r.Failure? && r.error.ApiErrorCode? <==> fetched.Success? && fetched.value.err != 0)
      && (fetched.Success? && fetched.value.err != 0 ==> r == Failure(ApiErrorCode(fetched.value.err)))
      && (fetched.Success? && fetched.value.err == 0 ==>
            r == Success(ToItem(fetched.value.result, formatTimestamp)))
  {
    var fetched := fetch("/item/" + itemId);
    if fetched.Failure? {
      return Failure(RequestFailed(fetched.error));
    }
    var resp := fetched.value;
    if resp.err != 0 {
      return Failure(ApiErrorCode(resp.err));
    }
    return Success(ToItem(resp.result, formatTimestamp));
  }

  /** GetOccurrences: the occurrences of an item, cut to the first `limit`
      entries in the order received. */
  method GetOccurrences(itemId: string, limit: int,
                        fetch: string -> Result<OccurrencesResponse, string>,
                        formatTimestamp: int -> string)
    returns (r: Result<seq<Occurrence>, ClientError>)
    ensures var fetched := fetch("/item/" + itemId + "/instances");
      && (fetched.Failure? ==> r == Failure(RequestFailed(fetched.error)))
      && (r.Failure? && r.error.ApiErrorCode? <==> fetched.Success? && fetched.value.err != 0)
      && (fetched.Success? && fetched.value.err != 0 ==> r == Failure(ApiErrorCode(fetched.value.err)))
      && (fetched.Success? && fetched.value.err == 0 ==>
            r.Success? && |r.value| == Kept(limit, |fetched.value.instances|)
            && forall k :: 0 <= k < |r.value| ==>
                 r.value[k] == ToOccurrence(fetched.value.instances[k], formatTimestamp))
  {
    var fetched := fetch("/item/" + itemId + "/instances");
    if fetched.Failure? {
      return Failure(RequestFailed(fetched.error));
    }
    var resp := fetched.value;
    if resp.err != 0 {
      return Failure(ApiErrorCode(resp.err));
    }
    var occurrences: seq<Occurrence> := [];
    var i := 0;
    while i < |resp.instances|
      invariant 0 <= i <= |resp.instances|
      invariant i == |occurrences|
      invariant i == 0 || i <= limit
      invariant forall k :: 0 <= k < i ==>
        occurrences[k] == ToOccurrence(resp.instances[k], formatTimestamp)
    {
      if i >= limit {
        break;
      }
      occurrences := occurrences + [ToOccurrence(resp.instances[i], formatTimestamp)];
      i := i + 1;
    }
    return Success(occurrences);
  }

  /** GetOccurrence: one occurrence by id. */
  method GetOccurrence(occurrenceId: string,
                       fetch: string -> Result<OccurrenceResponse, string>,
                       formatTimestamp: int -> string)
    returns (r: Result<Occurrence, ClientError>)
    ensures var fetched := fetch("/instance/" + occurrenceId);
      && (fetched.Failure? ==> r == Failure(RequestFailed(fetched.error)))
      && (r.Failure? && r.error.ApiErrorCode? <==> fetched.Success? && fetched.value.err != 0)
      && (fetched.Success? && fetched.value.err != 0 ==> r == Failure(ApiErrorCode(fetched.value.err)))
      && (fetched.Success? && fetched.value.err == 0 ==>
            r == Success(ToOccurrence(fetched.value.result, formatTimestamp)))
  {
    var fetched := fetch("/instance/" + occurrenceId);
    if fetched.Failure? {
      return Failure(RequestFailed(fetched.error));
    }
    var resp := fetched.value;
    if resp.err != 0 {
      return Failure(ApiErrorCode(resp.err));
    }
    return Success(ToOccurrence(resp.result, formatTimestamp));
  }
}
