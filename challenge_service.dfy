/**
 * The challenge use cases: creation (the host joins automatically and their
 * participation count grows), deletion (only by the host, only while the
 * host is the sole participant), the penalty estimate shown with a
 * challenge's details, joining (capacity, duplicate and join-window guards),
 * participation awards, and find-or-create of tags.
 *
 * The join-window decision and the expected progress of a challenge come
 * from a collaborator that is not part of this model; they are parameters
 * (`canJoin`, `maxProgress`). Image uploads are parameters too: their
 * resulting URLs are passed in.
 */
module ChallengeService {
  import opened Common
  import opened ChallengeDomain
  import opened Store

  const DefaultImageUrl: string :=
    "https://challengers-bucket.s3.ap-northeast-2.amazonaws.com/challengeDefaultImage.jpg"

  // ---------------------------------------------------------------------------
  // Participation awards
  // ---------------------------------------------------------------------------

  /** The award a user earns on reaching a participation count, if any. */
  function AwardFor(challengeCount: int32): (a: Option<Award>)
    ensures a == Some(OneParticipation) <==> challengeCount == 1
    ensures a == Some(FiftyParticipation) <==> challengeCount == 50
    ensures a == None <==> challengeCount != 1 && challengeCount != 50
  {
    if challengeCount == 1 then Some(OneParticipation)
    else if challengeCount == 50 then Some(FiftyParticipation)
    else None
  }

  /** The achievement records saved for a user with the given count: none or one. */
  function AwardsFor(userId: nat, challengeCount: int32): (s: seq<Achievement>)
    ensures |s| <= 1
    ensures |s| == 1 <==> challengeCount == 1 || challengeCount == 50
    ensures forall a :: a in s ==> a.userId == userId && Some(a.award) == AwardFor(challengeCount)
  {
    match AwardFor(challengeCount)
    case None => []
    case Some(award) => [Achievement(userId, award)]
  }

  method UpdateChallengeAchievement(repo: Repositories, userId: nat, user: User)
    modifies repo`achievements
    ensures repo.achievements == old(repo.achievements) + AwardsFor(userId, user.challengeCount)
  {
    if user.challengeCount == 1 {
      repo.achievements := repo.achievements + [Achievement(userId, OneParticipation)];
    } else if user.challengeCount == 50 {
      repo.achievements := repo.achievements + [Achievement(userId, FiftyParticipation)];
    }
  }

  // ---------------------------------------------------------------------------
  // Tags
  // ---------------------------------------------------------------------------

  /** Returns the tag with this name, saving a new one first when there is none. */
  method FindOrCreateTag(repo: Repositories, name: string) returns (tag: Tag)
    requires repo.Valid()
    modifies repo`tags, repo`nextId
    ensures repo.Valid()
    ensures tag.name == name && name in repo.tags && repo.tags[name] == tag.id
    ensures name in old(repo.tags) ==>
      tag.id == old(repo.tags)[name] && repo.tags == old(repo.tags) && repo.nextId == old(repo.nextId)
    ensures name !in old(repo.tags) ==>
      && repo.tags == old(repo.tags)[name := tag.id]
      && tag.id == old(repo.nextId) && repo.nextId == old(repo.nextId) + 1
      && forall other :: other in old(repo.tags) ==> old(repo.tags)[other] != tag.id
  {
    if name in repo.tags {
      tag := Tag(repo.tags[name], name);
    } else {
      tag := Tag(repo.nextId, name);
      repo.tags := repo.tags[name := tag.id];
      repo.nextId := repo.nextId + 1;
    }
  }

  /** The tags of a creation request, each found or created in turn. */
  method FindOrCreateTags(repo: Repositories, names: seq<string>)
    requires repo.Valid()
    modifies repo`tags, repo`nextId
    ensures repo.Valid()
    ensures repo.tags.Keys == old(repo.tags).Keys + (set i | 0 <= i < |names| :: names[i])
    ensures forall name :: name in old(repo.tags) ==> repo.tags[name] == old(repo.tags)[name]
  {
    for i := 0 to |names|
      invariant repo.Valid()
      invariant repo.tags.Keys == old(repo.tags).Keys + (set j | 0 <= j < i :: names[j])
      invariant forall name :: name in old(repo.tags) ==> repo.tags[name] == old(repo.tags)[name]
    {
      var _ := FindOrCreateTag(repo, names[i]);
    }
  }

  // ---------------------------------------------------------------------------
  // Create
  // ---------------------------------------------------------------------------

  /** The repository's save of a new challenge: the challenge gets the next id. */
  method SaveChallenge(repo: Repositories, c: Challenge) returns (id: nat)
    requires repo.Valid() && c !in repo.challenges.Values
    modifies repo`challenges, repo`nextId, c`id
    ensures repo.Valid()
    ensures id == old(repo.nextId) && id !in old(repo.challenges) && c.id == id
    ensures repo.challenges == old(repo.challenges)[id := c]
    ensures repo.nextId == old(repo.nextId) + 1
  {
    id := repo.nextId;
    c.SetId(id);
    repo.challenges := repo.challenges[id := c];
    repo.nextId := repo.nextId + 1;
  }

  /**
   * Saves the participation record of a user who joins a stored challenge:
   * in progress, with no progress yet.
   */
  method SaveUserChallenge(repo: Repositories, userId: nat, challengeId: nat)
    requires repo.Valid() && challengeId in repo.challenges
    modifies repo`userChallenges, repo`nextId
    ensures repo.Valid()
    ensures repo.userChallenges == old(repo.userChallenges)[(userId, challengeId) :=
      UserChallenge(old(repo.nextId), userId, challengeId, UserChallengeStatus.InProgress, 0)]
    ensures repo.nextId == old(repo.nextId) + 1
    ensures forall key :: key in old(repo.userChallenges) ==>
      old(repo.userChallenges)[key].id != old(repo.nextId)
  {
    repo.userChallenges := repo.userChallenges[(userId, challengeId) :=
      UserChallenge(repo.nextId, userId, challengeId, UserChallengeStatus.InProgress, 0)];
    repo.nextId := repo.nextId + 1;
  }

  /**
   * The persistence steps of a creation: the new challenge is saved, its
   * tags are found or created, the host's participation record is saved,
   * the host's participation count grows by one and the award for the new
   * count is given.
   */
  method SaveCreated(repo: Repositories, c: Challenge, userId: nat, tags: seq<string>)
    returns (id: nat)
    requires repo.Valid() && c !in repo.challenges.Values && userId in repo.users
    modifies repo`challenges, repo`nextId, repo`tags, repo`userChallenges, repo`users,
             repo`achievements, c`id
    ensures repo.Valid()
    ensures id !in old(repo.challenges) && repo.challenges == old(repo.challenges)[id := c]
    ensures (userId, id) !in old(repo.userChallenges)
    ensures repo.userChallenges.Keys == old(repo.userChallenges).Keys + {(userId, id)}
    ensures repo.userChallenges[(userId, id)].status == UserChallengeStatus.InProgress
    ensures repo.userChallenges[(userId, id)].maxProgress == 0
    ensures forall key :: key in old(repo.userChallenges) ==>
      repo.userChallenges[key] == old(repo.userChallenges)[key]
    ensures repo.users == old(repo.users)[userId :=
      User(Wrap32(old(repo.users)[userId].challengeCount as int + 1))]
    ensures repo.achievements == old(repo.achievements) + AwardsFor(userId, repo.users[userId].challengeCount)
    ensures repo.tags.Keys == old(repo.tags).Keys + (set i | 0 <= i < |tags| :: tags[i])
    ensures forall name :: name in old(repo.tags) ==> repo.tags[name] == old(repo.tags)[name]
  {
    id := SaveChallenge(repo, c);
    assert (userId, id) !in repo.userChallenges;
    FindOrCreateTags(repo, tags);
    SaveHostParticipation(repo, userId, id);
  }

  /**
   * The host's side of a creation: the participation record is saved, the
   * host's participation count grows by one and the award for the new
   * count is given.
   */
  method SaveHostParticipation(repo: Repositories, userId: nat, challengeId: nat)
    requires repo.Valid() && challengeId in repo.challenges && userId in repo.users
    modifies repo`nextId, repo`userChallenges, repo`users, repo`achievements
    ensures repo.Valid()
    ensures repo.userChallenges == old(repo.userChallenges)[(userId, challengeId) :=
      UserChallenge(old(repo.nextId), userId, challengeId, UserChallengeStatus.InProgress, 0)]
    ensures repo.users == old(repo.users)[userId :=
      User(Wrap32(old(repo.users)[userId].challengeCount as int + 1))]
    ensures repo.achievements == old(repo.achievements) + AwardsFor(userId, repo.users[userId].challengeCount)
  {
    SaveUserChallenge(repo, userId, challengeId);
    var host := User(Wrap32(repo.users[userId].challengeCount as int + 1));
    repo.users := repo.users[userId := host];
    UpdateChallengeAchievement(repo, userId, host);
  }

  /**
   * Creates a challenge hosted by `userId`: the host must exist and the date
   * range must be valid; then the challenge is built and saved as
   * `SaveCreated` says. A rejected creation changes nothing.
   */
  method Create(repo: Repositories, req: ChallengeRequest, userId: nat,
                uploadedImageUrl: string, examplePhotoUrls: seq<string>, today: int)
    returns (r: Result<nat>)
    requires repo.Valid()
    modifies repo`challenges, repo`nextId, repo`tags, repo`userChallenges, repo`users,
             repo`achievements
    ensures repo.Valid()
    ensures userId !in old(repo.users) ==> r == Err(NotFound)
    ensures userId in old(repo.users) && !(req.startDate < req.endDate) ==> r == Err(InvalidDateRange)
    ensures r.Ok? <==> userId in old(repo.users) && req.startDate < req.endDate
    ensures r.Err? ==>
      && repo.challenges == old(repo.challenges) && repo.userChallenges == old(repo.userChallenges)
      && repo.users == old(repo.users) && repo.tags == old(repo.tags)
      && repo.achievements == old(repo.achievements) && repo.nextId == old(repo.nextId)
    ensures r.Ok? ==>
      var id := r.value;
      && id !in old(repo.challenges) && id in repo.challenges
      && fresh(repo.challenges[id])
      && repo.challenges == old(repo.challenges)[id := repo.challenges[id]]
      && (userId, id) !in old(repo.userChallenges)
      && repo.userChallenges.Keys == old(repo.userChallenges).Keys + {(userId, id)}
      && repo.userChallenges[(userId, id)].status == UserChallengeStatus.InProgress
      && userId in repo.users
      && repo.users[userId].challengeCount == Wrap32(old(repo.users)[userId].challengeCount as int + 1)
      && repo.achievements == old(repo.achievements) + AwardsFor(userId, repo.users[userId].challengeCount)
    ensures r.Ok? ==>
      && repo.users == old(repo.users)[userId :=
           User(Wrap32(old(repo.users)[userId].challengeCount as int + 1))]
      && (forall key :: key in old(repo.userChallenges) ==>
            repo.userChallenges[key] == old(repo.userChallenges)[key])
      && repo.userChallenges[(userId, r.value)].maxProgress == 0
    ensures r.Ok? ==>
      && repo.tags.Keys == old(repo.tags).Keys + (set i | 0 <= i < |req.tags| :: req.tags[i])
      && forall name :: name in old(repo.tags) ==> repo.tags[name] == old(repo.tags)[name]
    ensures r.Ok? ==>
      var c := repo.challenges[r.value];
      && c.host == userId
      && c.imageUrl == (if req.hasImage then uploadedImageUrl else DefaultImageUrl)
      && c.ExamplePhotoUrls() == examplePhotoUrls
      && c.userCount == 0 && c.userCountLimit == req.userCountLimit
      && c.checkTimesPerRound == req.checkTimesPerRound
      && (if req.startDate > today then c.status == Ready && c.round == 0
          else c.status == ChallengeStatus.InProgress && c.round == 1)
  {
    if userId !in repo.users {
      return Err(NotFound);
    }
    var imageUrl := if req.hasImage then uploadedImageUrl else DefaultImageUrl;
    var created := Challenge.Create(req, userId, imageUrl, examplePhotoUrls, today);
    if created.Err? {
      return Err(created.error);
    }
    var id := SaveCreated(repo, created.value, userId, req.tags);
    return Ok(id);
  }

  // ---------------------------------------------------------------------------
  // Delete
  // ---------------------------------------------------------------------------

  /**
   * When the host's participation record is the only one of the challenge,
   * removing it leaves the challenge without participation records.
   */
  lemma {:induction false} SoleParticipantIsHost(userChallenges: map<(nat, nat), UserChallenge>,
                                                 challengeId: nat, hostId: nat)
    requires ParticipantCount(userChallenges, challengeId) == 1
    requires (hostId, challengeId) in userChallenges
    ensures forall key :: key in userChallenges && key.1 == challengeId ==> key == (hostId, challengeId)
    ensures ParticipantCount(userChallenges - {(hostId, challengeId)}, challengeId) == 0
  {
    var keys := set key | key in userChallenges && key.1 == challengeId;
    assert (hostId, challengeId) in keys;
    var others := keys - {(hostId, challengeId)};
    assert |others| == 0;
    forall key | key in userChallenges && key.1 == challengeId
      ensures key == (hostId, challengeId)
    {
      assert key in keys;
    }
  }

  /**
   * Deletes a challenge: only its host may, and only while exactly one
   * participation record (the host's) exists; that record and the challenge
   * are removed.
   */
  method Delete(repo: Repositories, challengeId: nat, userId: nat) returns (r: Outcome)
    requires repo.Valid()
    modifies repo`challenges, repo`userChallenges
    ensures repo.Valid()
    ensures r == (
      if challengeId !in old(repo.challenges) then Rejected(NotFound)
      else if old(repo.challenges)[challengeId].host != userId then Rejected(Unauthorized)
      else if ParticipantCount(old(repo.userChallenges), challengeId) != 1 then Rejected(ParticipantsPresent)
      else if (userId, challengeId) !in old(repo.userChallenges) then Rejected(NotFound)
      else Done)
    ensures r == Done ==>
      && repo.challenges == old(repo.challenges) - {challengeId}
      && repo.userChallenges == old(repo.userChallenges) - {(userId, challengeId)}
      && ParticipantCount(repo.userChallenges, challengeId) == 0
    ensures r != Done ==>
      repo.challenges == old(repo.challenges) && repo.userChallenges == old(repo.userChallenges)
  {
    if challengeId !in repo.challenges {
      return Rejected(NotFound);
    }
    var challenge := repo.challenges[challengeId];
    if challenge.host != userId {
      return Rejected(Unauthorized);
    }
    if ParticipantCount(repo.userChallenges, challengeId) != 1 {
      return Rejected(ParticipantsPresent);
    }
    var hostKey := (challenge.host, challengeId);
    if hostKey !in repo.userChallenges {
      return Rejected(NotFound);
    }
    SoleParticipantIsHost(repo.userChallenges, challengeId, challenge.host);
    repo.userChallenges := repo.userChallenges - {hostKey};
    repo.challenges := repo.challenges - {challengeId};
    return Done;
  }

  // ---------------------------------------------------------------------------
  // Penalty estimate
  // ---------------------------------------------------------------------------

  /** The participation records of a challenge that are in progress. */
  function InProgressKeys(userChallenges: map<(nat, nat), UserChallenge>, challengeId: nat)
    : (keys: set<(nat, nat)>)
    ensures keys <= userChallenges.Keys
  {
    set key | key in userChallenges && key.1 == challengeId &&
              userChallenges[key].status == UserChallengeStatus.InProgress
  }

  /** The sum of `maxProgress` over the given participation records. */
  ghost function SumMaxProgress(userChallenges: map<(nat, nat), UserChallenge>,
                                keys: set<(nat, nat)>): int
    requires keys <= userChallenges.Keys
    decreases keys
  {
    if keys == {} then 0
    else
      var key :| key in keys;
      userChallenges[key].maxProgress as int + SumMaxProgress(userChallenges, keys - {key})
  }

  /** The sum does not depend on which record is taken out first. */
  lemma {:induction false} SumMaxProgressRemove(userChallenges: map<(nat, nat), UserChallenge>,
                                                keys: set<(nat, nat)>, key: (nat, nat))
    requires keys <= userChallenges.Keys && key in keys
    ensures SumMaxProgress(userChallenges, keys) ==
            userChallenges[key].maxProgress as int + SumMaxProgress(userChallenges, keys - {key})
    decreases keys
  {
    var chosen :| chosen in keys &&
      SumMaxProgress(userChallenges, keys) ==
      userChallenges[chosen].maxProgress as int + SumMaxProgress(userChallenges, keys - {chosen});
    if chosen != key {
      SumMaxProgressRemove(userChallenges, keys - {chosen}, key);
      SumMaxProgressRemove(userChallenges, keys - {key}, chosen);
      assert keys - {chosen} - {key} == keys - {key} - {chosen};
    }
  }

  /** With no negative `maxProgress`, the sum is not negative. */
  lemma {:induction false} SumMaxProgressNonNegative(userChallenges: map<(nat, nat), UserChallenge>,
                                                     keys: set<(nat, nat)>)
    requires keys <= userChallenges.Keys
    requires forall key :: key in keys ==> userChallenges[key].maxProgress >= 0
    ensures SumMaxProgress(userChallenges, keys) >= 0
    decreases keys
  {
    if keys != {} {
      var key :| key in keys;
      SumMaxProgressRemove(userChallenges, keys, key);
      SumMaxProgressNonNegative(userChallenges, keys - {key});
    }
  }

  /**
   * The penalty estimate: the failure points divided (truncating) by the
   * participants' progress plus the challenge's expected progress, times the
   * expected progress. It is never negative for non-negative inputs.
   */
  function PenaltyEstimate(failedPoint: int, progress: int, maxProgress: int): (penalty: int)
    requires progress + maxProgress != 0
    ensures 0 <= failedPoint && 0 <= progress && 0 <= maxProgress ==> 0 <= penalty
  {
    JavaDiv(failedPoint, progress + maxProgress) * maxProgress
  }

  /**
   * With non-negative inputs the estimate never exceeds the failure points,
   * and with no participant progress it is the failure points rounded down
   * to a multiple of `maxProgress`.
   */
  lemma PenaltyAtMostFailedPoint(failedPoint: int, progress: int, maxProgress: int)
    requires 0 <= failedPoint && 0 <= progress && 0 <= maxProgress
    requires progress + maxProgress != 0
    ensures 0 <= PenaltyEstimate(failedPoint, progress, maxProgress) <= failedPoint
    ensures progress == 0 ==>
      var penalty := PenaltyEstimate(failedPoint, progress, maxProgress);
      penalty <= failedPoint < penalty + maxProgress
  {
    var d := progress + maxProgress;
    var units := JavaDiv(failedPoint, d);
    assert 0 <= units && units * d <= failedPoint < (units + 1) * d;
    assert units * maxProgress <= units * d by {
      assert units * d == units * maxProgress + units * progress;
      assert units * progress >= 0;
    }
  }

  /**
   * The detail view's penalty estimate for a challenge: the `maxProgress` of
   * its in-progress participants is summed, then the estimate is taken; a
   * zero denominator raises an arithmetic error.
   */
  method FindChallenge(repo: Repositories, challengeId: nat, maxProgress: int32)
    returns (r: Result<int>)
    ensures challengeId !in repo.challenges ==> r == Err(NotFound)
    ensures challengeId in repo.challenges ==>
      var progress := SumMaxProgress(repo.userChallenges, InProgressKeys(repo.userChallenges, challengeId));
      r == if progress + maxProgress as int == 0 then Err(DivisionByZero)
           else Ok(PenaltyEstimate(repo.challenges[challengeId].failedPoint as int, progress, maxProgress as int))
  {
    if challengeId !in repo.challenges {
      return Err(NotFound);
    }
    var challenge := repo.challenges[challengeId];
    var inProgress := InProgressKeys(repo.userChallenges, challengeId);
    var remaining := inProgress;
    var progress := 0;
    while remaining != {}
      invariant remaining <= inProgress
      invariant progress + SumMaxProgress(repo.userChallenges, remaining) ==
                SumMaxProgress(repo.userChallenges, inProgress)
      decreases remaining
    {
      var key :| key in remaining;
      SumMaxProgressRemove(repo.userChallenges, remaining, key);
      progress := progress + repo.userChallenges[key].maxProgress as int;
      remaining := remaining - {key};
    }
    if progress + maxProgress as int == 0 {
      return Err(DivisionByZero);
    }
    return Ok(PenaltyEstimate(challenge.failedPoint as int, progress, maxProgress as int));
  }

  // ---------------------------------------------------------------------------
  // Join
  // ---------------------------------------------------------------------------

  /**
   * The guards of a join, in the order they are checked: capacity, the
   * user's existence, an existing participation record, the join window.
   */
  function JoinGuard(userCount: int32, userCountLimit: int32, userExists: bool,
                     alreadyJoined: bool, canJoin: bool): (r: Outcome)
    ensures r == Done <==> userCount != userCountLimit && userExists && !alreadyJoined && canJoin
    ensures r == Rejected(ChallengeFull) <==> userCount == userCountLimit
    ensures r == Rejected(AlreadyJoined) <==> userCount != userCountLimit && userExists && alreadyJoined
    ensures r == Done && userCount <= userCountLimit ==> userCount < userCountLimit
  {
    if userCount == userCountLimit then Rejected(ChallengeFull)
    else if !userExists then Rejected(NotFound)
    else if alreadyJoined then Rejected(AlreadyJoined)
    else if !canJoin then Rejected(JoinWindowClosed)
    else Done
  }

  /**
   * Joins user `userId` to a challenge: on success the challenge's user count
   * grows by one, a participation record in progress with no progress is
   * saved, and the award for the user's (unchanged) participation count is
   * given. A rejected join changes nothing.
   */
  method Join(repo: Repositories, challengeId: nat, userId: nat, canJoin: bool) returns (r: Outcome)
    requires repo.Valid()
    modifies repo`userChallenges, repo`achievements, repo`nextId, repo.challenges.Values`userCount
    ensures repo.Valid()
    ensures challengeId !in repo.challenges ==> r == Rejected(NotFound)
    ensures challengeId in repo.challenges ==>
      var c := repo.challenges[challengeId];
      r == JoinGuard(old(c.userCount), c.userCountLimit, userId in repo.users,
                     (userId, challengeId) in old(repo.userChallenges), canJoin)
    ensures r == Done ==>
      var c := repo.challenges[challengeId];
      && c.userCount == Wrap32(old(c.userCount) as int + 1)
      && (old(c.userCount) <= c.userCountLimit ==>
            c.userCount == old(c.userCount) + 1 && c.userCount <= c.userCountLimit)
      && repo.userChallenges == old(repo.userChallenges)[(userId, challengeId) :=
           UserChallenge(old(repo.nextId), userId, challengeId, UserChallengeStatus.InProgress, 0)]
      && repo.achievements == old(repo.achievements) + AwardsFor(userId, repo.users[userId].challengeCount)
    ensures r != Done ==>
      && repo.userChallenges == old(repo.userChallenges)
      && repo.achievements == old(repo.achievements)
      && repo.nextId == old(repo.nextId)
    ensures forall id :: id in repo.challenges && (id != challengeId || r != Done) ==>
      repo.challenges[id].userCount == old(repo.challenges[id].userCount)
  {
    if challengeId !in repo.challenges {
      return Rejected(NotFound);
    }
    var challenge := repo.challenges[challengeId];
    r := JoinGuard(challenge.userCount, challenge.userCountLimit, userId in repo.users,
                   (userId, challengeId) in repo.userChallenges, canJoin);
    if r != Done {
      return;
    }
    challenge.JoinUser();
    UpdateChallengeAchievement(repo, userId, repo.users[userId]);
    SaveUserChallenge(repo, userId, challengeId);
  }

  /**
   * Joining the same challenge twice: when the first join succeeds the
   * second is rejected, because the challenge is now full or the user has
   * already joined.
   */
  method JoinTwice(repo: Repositories, challengeId: nat, userId: nat, canJoin: bool, canJoinAgain: bool)
    returns (first: Outcome, second: Outcome)
    requires repo.Valid()
    modifies repo`userChallenges, repo`achievements, repo`nextId, repo.challenges.Values`userCount
    ensures first == Done ==>
      second == Rejected(ChallengeFull) || second == Rejected(AlreadyJoined)
  {
    first := Join(repo, challengeId, userId, canJoin);
    second := Join(repo, challengeId, userId, canJoinAgain);
  }
}
