/** Values shared by both handlers: the flat records they store and return,
    the outcome of a store call, and the upstream endpoints they query. */
module Common {

  datatype Option<+T> = None | Some(value: T)

  datatype Result<+T> = Ok(value: T) | Err(error: string)

  /** One field of a flat record: a string, an integer, or the null that a
      missing JSON field reads as. */
  datatype Value = Str(s: string) | Num(n: int) | Null

  /** A flat record: the stats map returned to the caller, an error map, an
      item of the DynamoDB table, or a decoded JSON object from the upstream
      API. */
  type Item = map<string, Value>

  /** What one call to the persistent store does: succeed, or fail with an
      error message. */
  datatype StoreOutcome = Success | Fault(detail: string)

  /** The three upstream API endpoints. */
  datatype Endpoint = ProfileBasic | CountryMembers | ChallengeProgress

  /** The partition key of the table, and the name of the field holding it. */
  const DateKey: string := "date"

  /** The record written when the upstream fetch failed: the date key alone. */
  function Sentinel(today: string): Item
  {
    map[DateKey := Str(today)]
  }

  /** The record persisted for a successful fetch: the date key together with
      every field of `info`. Stripping the date key again gives back `info`,
      field for field, whenever `info` has no date field of its own. */
  function Stamped(today: string, info: Item): (r: Item)
    ensures r.Keys == info.Keys + {DateKey}
    ensures forall k :: k in info ==> r[k] == info[k]
    ensures DateKey !in info ==> r[DateKey] == Str(today) && r - {DateKey} == info
  {
    Sentinel(today) + info
  }

  /** A one-field error map `{"error": msg}`. */
  function ErrorMap(msg: string): Item
  {
    map["error" := Str(msg)]
  }

  /** A two-field error map `{"error": msg, "detail": detail}`. */
  function ErrorDetailMap(msg: string, detail: string): Item
  {
    map["error" := Str(msg), "detail" := Str(detail)]
  }
}
