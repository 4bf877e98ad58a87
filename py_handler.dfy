/** The older Python Lambda handler: no memory tier, the DynamoDB table in
    front of a two-request upstream client. Exceptions that escape the
    handler are modelled as an outcome of their own. */
module PyHandler {
  import opened Common
  import opened Store

  /** One `requests.get` call: it raised, or it answered with a status code
      and a decoded body. */
  datatype Reply<+T> = RequestRaised | Reply(status: int, body: T)

  /** The upstream answers: the `profile` object of the basic-profile
      endpoint, and the `rankings` list of the country endpoint. */
  datatype Replies = Replies(profile: Reply<Item>, rankings: Reply<seq<Item>>)

  /** How `get_rankings_from_htb` ends: a dict, `None`, or an exception. */
  datatype Fetched = Data(info: Item) | NoData | FetchRaised

  /** How `lambda_handler` ends: a returned dict, or an exception. */
  datatype Outcome = Returned(value: Item) | Raised

  /** Everything one invocation reads from outside: today's date, the
      environment variables (`None` when unset), the outcome of each table
      call and the upstream replies. */
  datatype Invocation = Invocation(
    today: string,
    tableName: Option<string>,
    get: StoreOutcome,
    userID: Option<string>,
    token: Option<string>,
    replies: Replies,
    sentinelPut: StoreOutcome,
    put: StoreOutcome)

  /** `d.get(key)`: the field, or `None` when it is missing. */
  function Get(d: Item, key: string): Value
  {
    if key in d then d[key] else Null
  }

  /** The six fields copied from the profile. */
  const ProfileKeys: set<string> :=
    {"System_Owns", "User_Owns", "System_Bloods", "User_Bloods", "Rank", "User_Global_Rank"}

  /** The six `User_Info` fields, each read with `profile.get`. */
  function ProfileInfo(profile: Item): (r: Item)
    ensures r.Keys == ProfileKeys
  {
    map["System_Owns" := Get(profile, "system_owns"), "User_Owns" := Get(profile, "user_owns"),
        "System_Bloods" := Get(profile, "system_bloods"), "User_Bloods" := Get(profile, "user_bloods"),
        "Rank" := Get(profile, "rank"), "User_Global_Rank" := Get(profile, "ranking")]
  }

  /** The profile call answered 200 with both a name and a country code. */
  ghost predicate Identified(rep: Replies)
  {
    rep.profile.Reply? && rep.profile.status == 200 &&
    Get(rep.profile.body, "name") != Null && Get(rep.profile.body, "country_code") != Null
  }

  /** The rankings the lookup loop runs over: none unless the call answered 200. */
  function ScannedRankings(r: Reply<seq<Item>>): seq<Item>
  {
    if r.Reply? && r.status == 200 then r.body else []
  }

  /** `i` is the first ranking whose name equals `name`. */
  ghost predicate IsFirstMatch(rankings: seq<Item>, name: Value, i: int)
  {
    0 <= i < |rankings| && Get(rankings[i], "name") == name &&
    forall j :: 0 <= j < i ==> Get(rankings[j], "name") != name
  }

  /** The rank of the first ranking whose name equals `name`, if any. */
  function FirstRank(rankings: seq<Item>, name: Value): (r: Option<Value>)
    ensures r.Some? ==> exists i :: 0 <= i < |rankings| && Get(rankings[i], "name") == name && r.value == Get(rankings[i], "rank")
  {
    if rankings == [] then None
    else if Get(rankings[0], "name") == name then Some(Get(rankings[0], "rank"))
    else FirstRank(rankings[1..], name)
  }

  /** `FirstRank` finds nothing exactly when no ranking carries the name,
      and otherwise the rank of the first one that does. */
  lemma {:induction false} FirstRankIsFirstMatch(rankings: seq<Item>, name: Value)
    ensures FirstRank(rankings, name).None? <==>
      forall i :: 0 <= i < |rankings| ==> Get(rankings[i], "name") != name
    ensures forall i :: IsFirstMatch(rankings, name, i) ==>
      FirstRank(rankings, name) == Some(Get(rankings[i], "rank"))
  {
    if rankings != [] {
      var rest := rankings[1..];
      FirstRankIsFirstMatch(rest, name);
      forall i | IsFirstMatch(rankings, name, i)
        ensures FirstRank(rankings, name) == Some(Get(rankings[i], "rank"))
      {
        if i > 0 {
          assert IsFirstMatch(rest, name, i - 1);
        }
      }
      if Get(rankings[0], "name") != name {
        assert forall i :: 0 < i < |rankings| ==> rankings[i] == rest[i - 1];
      }
    }
  }

  /** The outcome of `get_rankings_from_htb`. */
  function Rankings(userID: Option<string>, token: Option<string>, rep: Replies): (r: Fetched)
    // None: a variable is unset, or the profile call gave no name or no country code
    ensures r.NoData? <==>
      userID.None? || token.None? ||
      (rep.profile.Reply? && !Identified(rep))
    // an exception escapes from either request
    ensures r.FetchRaised? <==>
      userID.Some? && token.Some? &&
      (rep.profile.RequestRaised? || (Identified(rep) && rep.rankings.RequestRaised?))
    // a dict: the six profile fields and, when a ranking matched, Local_Rank; nothing else
    ensures r.Data? ==>
      var name := Get(rep.profile.body, "name");
      var ranks := ScannedRankings(rep.rankings);
      && ProfileKeys <= r.info.Keys <= ProfileKeys + {"Local_Rank"}
      && DateKey !in r.info && "Challenge_Owns" !in r.info
      && (forall k :: k in ProfileKeys ==> r.info[k] == ProfileInfo(rep.profile.body)[k])
      && ("Local_Rank" in r.info <==> exists i :: 0 <= i < |ranks| && Get(ranks[i], "name") == name)
      && (forall i :: IsFirstMatch(ranks, name, i) ==> r.info["Local_Rank"] == Get(ranks[i], "rank"))
  {
    if userID.None? || token.None? then NoData
    else match rep.profile
      case RequestRaised => FetchRaised
      case Reply(status, profile) =>
        if status != 200 || Get(profile, "name") == Null || Get(profile, "country_code") == Null then NoData
        else if rep.rankings.RequestRaised? then FetchRaised
        else
          var name := Get(profile, "name");
          var ranks := ScannedRankings(rep.rankings);
          FirstRankIsFirstMatch(ranks, name);
          match FirstRank(ranks, name)
          case Some(k) => Data(ProfileInfo(profile)["Local_Rank" := k])
          case None => Data(ProfileInfo(profile))
  }

  /** The requests `get_rankings_from_htb` issues, in order. */
  function RequestsIssued(userID: Option<string>, token: Option<string>, rep: Replies): (r: seq<Endpoint>)
    ensures Rankings(userID, token, rep).NoData? ==>
      r == (if userID.None? || token.None? then [] else [ProfileBasic])
    ensures Rankings(userID, token, rep).FetchRaised? ==>
      r == (if rep.profile.RequestRaised? then [ProfileBasic] else [ProfileBasic, CountryMembers])
    ensures Rankings(userID, token, rep).Data? ==> r == [ProfileBasic, CountryMembers]
  {
    if userID.None? || token.None? then []
    else if rep.profile.Reply? && rep.profile.status == 200 &&
            Get(rep.profile.body, "name") != Null && Get(rep.profile.body, "country_code") != Null
    then [ProfileBasic, CountryMembers]
    else [ProfileBasic]
  }

  /** `get_rankings_from_htb`: checks the variables, reads the profile,
      then looks up the first ranking with the user's name. `calls` lists the
      requests issued. */
  method GetRankingsFromHtb(userID: Option<string>, token: Option<string>, rep: Replies)
    returns (r: Fetched, calls: seq<Endpoint>)
    ensures r == Rankings(userID, token, rep)
    ensures calls == RequestsIssued(userID, token, rep)
  {
    if token.None? || userID.None? {
      return NoData, [];
    }
    var username, countryCode := Null, Null;
    var userInfo: Item := map[];

    calls := [ProfileBasic];
    if rep.profile.RequestRaised? {
      return FetchRaised, calls;
    }
    if rep.profile.status == 200 {
      var profile := rep.profile.body;
      username := Get(profile, "name");
      countryCode := Get(profile, "country_code");
      userInfo := ProfileInfo(profile);
    }
    if username == Null || countryCode == Null {
      return NoData, calls;
    }

    calls := calls + [CountryMembers];
    if rep.rankings.RequestRaised? {
      return FetchRaised, calls;
    }
    if rep.rankings.status == 200 {
      var ranks := rep.rankings.body;
      var i := 0;
      while i < |ranks|
        invariant 0 <= i <= |ranks|
        invariant FirstRank(ranks[i..], username) == FirstRank(ranks, username)
        invariant userInfo == ProfileInfo(rep.profile.body)
      {
        if Get(ranks[i], "name") == username {
          userInfo := userInfo["Local_Rank" := Get(ranks[i], "rank")];
          break;
        }
        assert ranks[i..][1..] == ranks[i + 1..];
        i := i + 1;
      }
    }
    r := Data(userInfo);
  }

  /** `lambda_handler`: read today's item; on a hit return it without its
      date key; on a miss fetch, then write the sentinel or the stamped data.
      `calls` lists the upstream requests issued. */
  method LambdaHandler(table: Table, inv: Invocation) returns (r: Outcome, calls: seq<Endpoint>)
    modifies table
    // TABLE_NAME unset or empty: an error, no table access
    ensures inv.tableName.None? || inv.tableName == Some("") ==>
      && r == Returned(ErrorMap("TABLE_NAME not configured")) && calls == []
      && table.items == old(table.items) && table.log == old(table.log)
    // the read raises: an error, nothing written
    ensures inv.tableName.Some? && inv.tableName != Some("") && inv.get.Fault? ==>
      && r == Returned(ErrorMap("Database lookup failed")) && calls == []
      && table.items == old(table.items) && table.log == old(table.log) + [Read(inv.today)]
    // a hit: the stored item minus its date key, no fetch
    ensures inv.tableName.Some? && inv.tableName != Some("") && inv.get.Success? && inv.today in old(table.items) ==>
      && r == Returned(old(table.items)[inv.today] - {DateKey}) && calls == []
      && table.items == old(table.items) && table.log == old(table.log) + [Read(inv.today)]
    // a miss: fetch, then write
    ensures inv.tableName.Some? && inv.tableName != Some("") && inv.get.Success? && inv.today !in old(table.items) ==>
      var fetched := Rankings(inv.userID, inv.token, inv.replies);
      && calls == RequestsIssued(inv.userID, inv.token, inv.replies)
      // the fetch raised: it propagates, nothing written
      && (fetched.FetchRaised? ==>
            r == Raised && table.items == old(table.items) && table.log == old(table.log) + [Read(inv.today)])
      // no data: the sentinel is written (its failure propagates), and an error is returned
      && (fetched.NoData? ==>
            && table.log == old(table.log) + [Read(inv.today)] + [Write(inv.today, Sentinel(inv.today))]
            && (inv.sentinelPut.Success? ==>
                  r == Returned(ErrorMap("Could not retrieve rankings")) &&
                  table.items == old(table.items)[inv.today := Sentinel(inv.today)])
            && (inv.sentinelPut.Fault? ==> r == Raised && table.items == old(table.items)))
      // data: date plus data is written; the data is returned, or the write error
      && (fetched.Data? ==>
            && table.log == old(table.log) + [Read(inv.today)] + [Write(inv.today, Stamped(inv.today, fetched.info))]
            && (inv.put.Success? ==>
                  r == Returned(fetched.info) &&
                  table.items == old(table.items)[inv.today := Stamped(inv.today, fetched.info)])
            && (inv.put.Fault? ==>
                  r == Returned(ErrorMap("Error writing item to DynamoDB: " + inv.put.detail)) &&
                  table.items == old(table.items)))
  {
    var todayStr := inv.today;
    if inv.tableName.None? || inv.tableName.value == "" {
      return Returned(ErrorMap("TABLE_NAME not configured")), [];
    }

    var resp := table.GetItem(todayStr, inv.get);
    if resp.GetFailed? {
      return Returned(ErrorMap("Database lookup failed")), [];
    }
    if resp.Found? {
      var item := resp.item;
      item := item - {DateKey};
      return Returned(item), [];
    }

    var item := Sentinel(todayStr);
    var data;
    data, calls := GetRankingsFromHtb(inv.userID, inv.token, inv.replies);
    if data.FetchRaised? {
      return Raised, calls;
    }
    if data.NoData? {
      var err := table.PutItem(todayStr, item, inv.sentinelPut);
      if err.Some? {
        return Raised, calls;
      }
      return Returned(ErrorMap("Could not retrieve rankings")), calls;
    }

    item := item + data.info;
    var err := table.PutItem(todayStr, item, inv.put);
    if err.Some? {
      return Returned(ErrorMap("Error writing item to DynamoDB: " + err.value)), calls;
    }
    r := Returned(data.info);
  }
}

/** Same-day persistence across invocations of the Python handler. */
module PyReplay {
  import opened Common
  import opened Store
  import opened PyHandler

  /** Two invocations on the same day, one after the other, against a table
      with no item for that day. A successful fetch is served back field for
      field by the second invocation; a fetch that found no data leaves the
      sentinel, which the second invocation serves as an empty dict. Either
      way the second issues no upstream request. */
  method SameDayTwice(table: Table, first: Invocation, second: Invocation)
    returns (r1: Outcome, r2: Outcome, calls2: seq<Endpoint>)
    modifies table
    ensures
      var fetched := Rankings(first.userID, first.token, first.replies);
      first.today == second.today && first.today !in old(table.items) &&
      first.tableName.Some? && first.tableName != Some("") &&
      second.tableName.Some? && second.tableName != Some("") &&
      first.get.Success? && second.get.Success? ==>
        && (fetched.Data? && first.put.Success? ==> r1 == Returned(fetched.info) && r2 == r1 && calls2 == [])
        && (fetched.NoData? && first.sentinelPut.Success? ==>
              r1 == Returned(ErrorMap("Could not retrieve rankings")) && r2 == Returned(map[]) && calls2 == [])
  {
    var calls1;
    r1, calls1 := LambdaHandler(table, first);
    r2, calls2 := LambdaHandler(table, second);
    assert Sentinel(first.today) - {DateKey} == map[];
  }
}
