# HTB_Rankings: the cache-aside stats handler, modelled in Dafny

HTB_Rankings is an AWS Lambda function that reports one Hack The Box
account's statistics. It puts two caches in front of the rate-limited Hack The
Box API. The first is a process-lifetime in-memory map, held only by the Go
version. The second is a DynamoDB table keyed by today's date. On a miss
the handler fetches the profile, the account's position on its country
leaderboard and (in Go) its challenge count. It folds them into one flat stats
map and writes that map back through both tiers. When the fetch fails it writes
a sentinel item holding only the date. When that write succeeds, the API is not
queried again that day. A failed sentinel write is ignored by Go, so the next
invocation fetches again, and raises in Python. A Python request that raises
writes nothing.

This project models both versions of the handler and proves what each one
does:

- `main.go`, the current Go handler, is modelled by module `GoRankings`
  (`getRankingsFromHTB`) and module `GoHandler`. In `GoHandler` the class
  `Handler` holds the process-global `dataCache` and its method `Handle` is
  `handler`. `Serve` runs one warm process over a sequence of invocations.
  `GoReplay` runs two cold processes against one table.
- `lambda_function.py`, the older Python handler, is modelled by module
  `PyHandler` (`get_rankings_from_htb`, `lambda_handler`) and module `PyReplay`.
- `Common` holds the flat record type, the date sentinel and the stamped
  record. `Store` holds the DynamoDB table: a class with an `items` map
  and a ghost log of every read and write.

The collaborators are inputs. Each invocation record carries:

- today's date as a string;
- the environment variables (Go: strings, where empty means unset; Python:
  `Option`, where `None` means unset);
- the success or failure of every table call and of Go's attribute
  (un)marshalling;
- what each upstream request answered.

Go's `doGet` is an oracle. It yields an error message or the decoded record
for the profile. For the leaderboard and the challenge count it yields
failure or the decoded value. A failed best-effort request leaves its response
at Go's zero value, so the name scan sees an empty list and `Challenge_Owns`
reads 0. Each Python `requests.get` either raises or answers a status with a
decoded body. An exception that escapes `lambda_handler` is an outcome of
its own, `Raised`.

The model follows the code at these points, which are easy to misread:

- On a table hit, Go caches and returns the stored item with its `"date"` key
  (main.go:77-84). Only the Python version strips it (lambda_function.py:37).
- On a failed item write, Go leaves `dataCache` empty and returns an error
  (main.go:111-121). The cache is not filled in that case.
- Python does not always return a mapping. The sentinel `put_item`
  (lambda_function.py:44) and both `requests.get` calls are unguarded, so their
  failures propagate out of the handler.
- An empty map in `dataCache` counts as no cache (main.go:43). A table item that
  decodes to an empty map is therefore re-read on the next invocation.

## Model

| member | source | states |
|---|---|---|
| `Common.Stamped` | main.go:100-104 | the stored record holds every stats field and the date key; with the date key stripped it is the stats map again, field for field |
| `Store.Table.GetItem` | main.go:63-76 | a read of today's key is logged; a faulty read yields its error detail, otherwise the stored item or absence |
| `Store.Table.PutItem` | main.go:111-121 | a write is logged; a successful write replaces the key's item, a faulty one leaves the table unchanged and yields the error |
| `GoRankings.FirstRank` | main.go:200-205 | the reference scan: a rank it finds belongs to some entry whose name equals the profile name |
| `GoRankings.ProfileInfo` | main.go:181-188 | the `info` literal; its contract is only the key set, exactly the six profile keys (the values are stated by `Rankings`) |
| `GoRankings.FirstRankIsFirstMatch` | main.go:200-205 | the scan finds nothing exactly when no entry's name equals the profile name, and otherwise yields the rank of the first such entry |
| `GoRankings.Rankings` | main.go:130-219 | fails exactly when USER_ID or TOKEN is empty, the profile request fails, or the name or country code is empty, each with its message; otherwise holds the six profile fields, `Challenge_Owns` (0 when that request failed), `Local_Rank` exactly when an entry's name matches (the first one's rank), and no date key |
| `GoRankings.RequestsIssued` | main.go:131-216 | a failed fetch issues no request (configuration) or only the profile request; a successful one issues the profile, leaderboard and challenge requests in that order |
| `GoRankings.GetRankingsFromHTB` | main.go:130-219 | the imperative fetch with its break-on-first-match loop computes exactly `Rankings` and issues exactly `RequestsIssued` |
| `GoHandler.Merge` | main.go:44-47 | the range-copy loop yields the base map with every field of the source inserted, the source winning on a shared key |
| `GoHandler.Handler.constructor` | main.go:37 | a new process starts with an empty cache and no upstream requests |
| `GoHandler.Handler.Handle` | main.go:40-128 | a non-empty cache is returned with no table access and no upstream request; an empty table name returns the configuration error and changes nothing; a read error returns error and detail and leaves the cache empty; a decoded hit (a sentinel included) becomes the cache and is returned with no fetch; a failed fetch writes the sentinel (its error ignored), returns the error and leaves the cache; a marshal failure returns an error and writes nothing; a failed write returns error and detail with the cache still empty; a successful write stores date plus stats, caches and returns the stats; the cache only changes from empty to the returned map |
| `GoHandler.Handler.Refresh` | main.go:87-98 | the miss path: the fetch's requests are logged; a failed fetch writes the sentinel (its error ignored) and returns the error with the cache untouched; a successful one goes on to `Persist` |
| `GoHandler.Handler.Persist` | main.go:100-127 | a marshal failure returns an error and writes nothing; a failed write returns error and detail with the cache untouched; a successful write stores date plus stats, then caches and returns the stats |
| `GoHandler.Serve` | main.go:42-50 | in one warm process, an invocation that leaves the cache non-empty returns the cached map, and every later invocation returns that map and issues no upstream request and no table access |
| `GoReplay.ColdStartsSameDay` | main.go:77-98 | a second process on the same day issues no upstream request: after a failed fetch it serves the sentinel, after a successful one the stored date plus stats, whose stats part is what the first process returned |
| `PyHandler.FirstRank` | lambda_function.py:114-118 | the reference lookup: a rank it finds is the `rank` of some ranking whose `name` equals the user name |
| `PyHandler.ProfileInfo` | lambda_function.py:99-104 | the `User_Info` assignments; its contract is only the key set, exactly the six profile keys (the values are stated by `Rankings`) |
| `PyHandler.FirstRankIsFirstMatch` | lambda_function.py:114-118 | the lookup finds nothing exactly when no ranking's name equals the user name, and otherwise yields the rank of the first such ranking |
| `PyHandler.Rankings` | lambda_function.py:58-120 | `None` exactly when USER_ID or TOKEN is unset or the profile call gave no name or country code (a non-200 status included); an exception exactly when a request raises; otherwise only the six profile fields and `Local_Rank` exactly when a ranking from a 200 reply matches (the first one's rank), with no `Challenge_Owns` and no date key |
| `PyHandler.RequestsIssued` | lambda_function.py:74-113 | `None` from missing variables issues no request, a failed profile only the profile request, a complete fetch the profile then the country request |
| `PyHandler.GetRankingsFromHtb` | lambda_function.py:58-120 | the imperative fetch with its break-on-first-match loop computes exactly `Rankings` and issues exactly `RequestsIssued` |
| `PyHandler.LambdaHandler` | lambda_function.py:9-55 | an unset or empty table name returns the configuration error with no table access; a read error returns the lookup error and writes nothing; a hit returns the item without its date key and fetches nothing; `None` from the fetch writes the sentinel and returns the retrieval error (a failed sentinel write raises); data writes date plus data and returns the data, or the write error |
| `PyReplay.SameDayTwice` | lambda_function.py:35-55 | a second invocation on the same day fetches nothing: after a successful fetch it returns the same data, after a fetch that found none it returns the empty sentinel remainder |

## Left out

- AWS SDK setup (`init`'s `LoadDefaultConfig`, `boto3.resource`), `lambda.Start`/`main`, `os.Getenv`, `log.Printf`: runtime setup; configuration strings are parameters.
- HTTP: URLs, headers, the User-Agent, the 10-second timeout, status checks and JSON decoding inside `doGet` and `requests.get`. Each request is one input. A JSON decode that fails half-way and leaves part of a Go struct filled is not modelled. Neither are Python bodies that are not dicts or lists, nor a `.json()` call that raises.
- Python `.get("profile", {})` and `.get("data", {}).get("rankings", [])`: the profile and rankings inputs already have these defaults applied.
- DynamoDB attribute marshalling: Go's `MarshalMap`/`UnmarshalMap` outcomes are boolean inputs. The number representations DynamoDB returns (`Decimal`, `float64`) are not modelled; a stored value reads back as it was written.
- `sync.RWMutex` and concurrent invocations: invocations are sequential method calls on one `Handler` object.
- Go `int` is 64-bit; the model's integers are unbounded, because the upstream counters are far from that bound and decoding an out-of-range number is an HTTP-layer failure.
- Wall-clock date formatting: today's date is a string parameter.
