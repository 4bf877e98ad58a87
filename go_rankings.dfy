/** The upstream client of the Go handler (`getRankingsFromHTB`): three
    requests, validated and folded into one flat stats map. Each request is
    an input: what the `doGet` helper returned for it. */
module GoRankings {
  import opened Common

  /** The decoded `profile` object of the basic-profile endpoint. */
  datatype Profile = Profile(
    name: string, countryCode: string,
    systemOwns: int, userOwns: int, systemBloods: int, userBloods: int,
    rank: string, ranking: int)

  /** One member of the country leaderboard. */
  datatype RankEntry = RankEntry(name: string, rank: int)

  /** The basic-profile request: its error (transport, non-200 status or
      decoding), or the decoded profile. */
  datatype ProfileReply = ProfileFailed(err: string) | ProfileOk(profile: Profile)

  /** The country leaderboard request. */
  datatype LeaderboardReply = LeaderboardFailed | LeaderboardOk(rankings: seq<RankEntry>)

  /** The challenge-progress request: failed, or the decoded solved count. */
  datatype ChallengeReply = ChallengeFailed | ChallengeOk(solved: int)

  /** What the upstream API answers to each of the three requests. */
  datatype Replies = Replies(profile: ProfileReply, leaderboard: LeaderboardReply, challenge: ChallengeReply)

  /** The six fields copied from the profile into every successful result. */
  const ProfileKeys: set<string> :=
    {"System_Owns", "User_Owns", "System_Bloods", "User_Bloods", "Rank", "User_Global_Rank"}

  /** The leaderboard the scan runs over: a failed request leaves the
      response struct at its zero value, an empty list. */
  function ScannedRankings(l: LeaderboardReply): seq<RankEntry>
  {
    if l.LeaderboardOk? then l.rankings else []
  }

  /** The solved count read back: zero when the request failed. */
  function SolvedCount(c: ChallengeReply): int
  {
    if c.ChallengeOk? then c.solved else 0
  }

  /** `i` is the first position in `rankings` whose name is exactly `name`. */
  ghost predicate IsFirstMatch(rankings: seq<RankEntry>, name: string, i: int)
  {
    0 <= i < |rankings| && rankings[i].name == name &&
    forall j :: 0 <= j < i ==> rankings[j].name != name
  }

  /** The rank of the first leaderboard entry named `name`, if any. */
  function FirstRank(rankings: seq<RankEntry>, name: string): (r: Option<int>)
    ensures r.Some? ==> exists i :: 0 <= i < |rankings| && rankings[i].name == name && r.value == rankings[i].rank
  {
    if rankings == [] then None
    else if rankings[0].name == name then Some(rankings[0].rank)
    else FirstRank(rankings[1..], name)
  }

  /** `FirstRank` finds nothing exactly when no entry carries the name, and
      otherwise the rank of the first entry that does. */
  lemma {:induction false} FirstRankIsFirstMatch(rankings: seq<RankEntry>, name: string)
    ensures FirstRank(rankings, name).None? <==> forall i :: 0 <= i < |rankings| ==> rankings[i].name != name
    ensures forall i :: IsFirstMatch(rankings, name, i) ==> FirstRank(rankings, name) == Some(rankings[i].rank)
  {
    if rankings != [] {
      var rest := rankings[1..];
      FirstRankIsFirstMatch(rest, name);
      forall i | IsFirstMatch(rankings, name, i)
        ensures FirstRank(rankings, name) == Some(rankings[i].rank)
      {
        if i > 0 {
          assert rankings[0].name != name;
          assert IsFirstMatch(rest, name, i - 1);
        }
      }
      if rankings[0].name != name {
        assert forall i :: 0 < i < |rankings| ==> rankings[i] == rest[i - 1];
      }
    }
  }

  /** The six profile fields, as the `info` map literal holds them. */
  function ProfileInfo(p: Profile): (r: Item)
    ensures r.Keys == ProfileKeys
  {
    map["System_Owns" := Num(p.systemOwns), "User_Owns" := Num(p.userOwns),
        "System_Bloods" := Num(p.systemBloods), "User_Bloods" := Num(p.userBloods),
        "Rank" := Str(p.rank), "User_Global_Rank" := Num(p.ranking)]
  }

  /** The outcome of `getRankingsFromHTB` for the given configuration and
      upstream replies. */
  function Rankings(userID: string, token: string, rep: Replies): (r: Result<Item>)
    // the three ways the fetch fails, and their messages
    ensures r.Err? <==>
      userID == "" || token == "" || rep.profile.ProfileFailed? ||
      rep.profile.profile.name == "" || rep.profile.profile.countryCode == ""
    ensures userID == "" || token == "" ==> r == Err("USER_ID or TOKEN not configured")
    ensures userID != "" && token != "" && rep.profile.ProfileFailed? ==> r == Err(rep.profile.err)
    ensures userID != "" && token != "" && rep.profile.ProfileOk? && r.Err? ==>
      r == Err("Could not retrieve user profile")
    // a successful result: the profile fields, Challenge_Owns, and Local_Rank when a name matches
    ensures r.Ok? ==>
      var p := rep.profile.profile;
      var ranks := ScannedRankings(rep.leaderboard);
      && ProfileKeys + {"Challenge_Owns"} <= r.value.Keys <= ProfileKeys + {"Challenge_Owns", "Local_Rank"}
      && DateKey !in r.value
      && (forall k :: k in ProfileKeys ==> r.value[k] == ProfileInfo(p)[k])
      && r.value["Challenge_Owns"] == Num(SolvedCount(rep.challenge))
      && ("Local_Rank" in r.value <==> exists i :: 0 <= i < |ranks| && ranks[i].name == p.name)
      && (forall i :: IsFirstMatch(ranks, p.name, i) ==> r.value["Local_Rank"] == Num(ranks[i].rank))
  {
    if userID == "" || token == "" then Err("USER_ID or TOKEN not configured")
    else match rep.profile
      case ProfileFailed(e) => Err(e)
      case ProfileOk(p) =>
        if p.name == "" || p.countryCode == "" then Err("Could not retrieve user profile")
        else
          var ranks := ScannedRankings(rep.leaderboard);
          FirstRankIsFirstMatch(ranks, p.name);
          var info := ProfileInfo(p);
          var withLocal := match FirstRank(ranks, p.name)
            case Some(k) => info["Local_Rank" := Num(k)]
            case None => info;
          Ok(withLocal["Challenge_Owns" := Num(SolvedCount(rep.challenge))])
  }

  /** The requests `getRankingsFromHTB` issues, in order. */
  function RequestsIssued(userID: string, token: string, rep: Replies): (r: seq<Endpoint>)
    ensures Rankings(userID, token, rep).Err? ==>
      r == (if userID == "" || token == "" then [] else [ProfileBasic])
    ensures Rankings(userID, token, rep).Ok? ==> r == [ProfileBasic, CountryMembers, ChallengeProgress]
  {
    if userID == "" || token == "" then []
    else if rep.profile.ProfileFailed? || rep.profile.profile.name == "" || rep.profile.profile.countryCode == ""
    then [ProfileBasic]
    else [ProfileBasic, CountryMembers, ChallengeProgress]
  }

  /** `getRankingsFromHTB`: checks the configuration, fetches and validates
      the profile, scans the leaderboard for the first exact name match and
      reads the challenge count. `calls` lists the requests issued. */
  method GetRankingsFromHTB(userID: string, token: string, rep: Replies)
    returns (r: Result<Item>, calls: seq<Endpoint>)
    ensures r == Rankings(userID, token, rep)
    ensures calls == RequestsIssued(userID, token, rep)
  {
    if userID == "" || token == "" {
      return Err("USER_ID or TOKEN not configured"), [];
    }
    calls := [ProfileBasic];
    if rep.profile.ProfileFailed? {
      return Err(rep.profile.err), calls;
    }
    var p := rep.profile.profile;
    if p.name == "" || p.countryCode == "" {
      return Err("Could not retrieve user profile"), calls;
    }
    var info := ProfileInfo(p);

    calls := calls + [CountryMembers];
    var ranks := ScannedRankings(rep.leaderboard);
    var i := 0;
    while i < |ranks|
      invariant 0 <= i <= |ranks|
      invariant FirstRank(ranks[i..], p.name) == FirstRank(ranks, p.name)
      invariant info == ProfileInfo(p)
    {
      if ranks[i].name == p.name {
        info := info["Local_Rank" := Num(ranks[i].rank)];
        break;
      }
      assert ranks[i..][1..] == ranks[i + 1..];
      i := i + 1;
    }

    calls := calls + [ChallengeProgress];
    info := info["Challenge_Owns" := Num(SolvedCount(rep.challenge))];
    r := Ok(info);
  }
}
