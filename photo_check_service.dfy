/**
 * The photo-check workflow: a participant submits a photo for the current
 * round of an in-progress challenge, and the challenge's host passes or
 * fails submitted checks in batches.
 *
 * A batch review runs in one transaction: when any check of the batch is
 * rejected, none of the batch's changes is kept. The photo upload is a
 * parameter (its resulting URL is passed in).
 */
module PhotoCheckService {
  import opened Common
  import opened ChallengeDomain
  import opened Store
  import ChallengeService

  // ---------------------------------------------------------------------------
  // Submission
  // ---------------------------------------------------------------------------

  /** The ids of the photo checks filed under `userChallengeId` for `round`. */
  function RoundChecks(photoChecks: map<nat, PhotoCheck>, userChallengeId: nat, round: int32)
    : set<nat>
  {
    set id | id in photoChecks && photoChecks[id].userChallengeId == userChallengeId &&
             photoChecks[id].round == round
  }

  /** The number of photo checks filed under `userChallengeId` for `round`. */
  function RoundCount(photoChecks: map<nat, PhotoCheck>, userChallengeId: nat, round: int32): nat
  {
    |RoundChecks(photoChecks, userChallengeId, round)|
  }

  /**
   * Filing one new check adds one to the count of its own participation
   * record and round, and leaves every other count as it was.
   */
  lemma RoundCountInsert(photoChecks: map<nat, PhotoCheck>, id: nat, check: PhotoCheck,
                         userChallengeId: nat, round: int32)
    requires id !in photoChecks
    ensures RoundCount(photoChecks[id := check], userChallengeId, round) ==
            RoundCount(photoChecks, userChallengeId, round) +
            (if check.userChallengeId == userChallengeId && check.round == round then 1 else 0)
  {
    var before := RoundChecks(photoChecks, userChallengeId, round);
    var after := RoundChecks(photoChecks[id := check], userChallengeId, round);
    if check.userChallengeId == userChallengeId && check.round == round {
      assert after == before + {id};
    } else {
      assert after == before;
    }
  }

  /**
   * The guards of a submission, in the order they are checked: the
   * challenge is in progress, the user exists, the user's participation
   * record exists and is in progress, and fewer than `checkTimesPerRound`
   * checks are already counted for the round.
   */
  function SubmissionGuard(status: ChallengeStatus, userExists: bool,
                           participation: Option<UserChallenge>,
                           counted: nat, checkTimesPerRound: int32): (r: Outcome)
    ensures r == Done <==>
      && status == ChallengeStatus.InProgress && userExists && participation.Some?
      && participation.value.status == UserChallengeStatus.InProgress
      && counted < checkTimesPerRound as int
    ensures r == Rejected(NotInProgress) <==> status != ChallengeStatus.InProgress
    ensures r == Rejected(QuotaExceeded) <==>
      && status == ChallengeStatus.InProgress && userExists && participation.Some?
      && participation.value.status == UserChallengeStatus.InProgress
      && counted >= checkTimesPerRound as int
  {
    if status != ChallengeStatus.InProgress then Rejected(NotInProgress)
    else if !userExists then Rejected(NotFound)
    else if participation.None? then Rejected(NotFound)
    else if participation.value.status != UserChallengeStatus.InProgress then Rejected(NotParticipating)
    else if counted >= checkTimesPerRound as int then Rejected(QuotaExceeded)
    else Done
  }

  /**
   * The saves of an accepted submission: the photo, then one WAITING check
   * filed under the participation record `participationId` and stamped with
   * `round`, each under a fresh id. Every round count moves only for that
   * record and that round, by one.
   */
  method SaveSubmission(repo: Repositories, challengeId: nat, userId: nat, photoUrl: string,
                        participationId: nat, round: int32)
    returns (checkId: nat)
    requires repo.Valid()
    modifies repo`photoChecks, repo`challengePhotos, repo`nextId
    ensures repo.Valid()
    ensures checkId !in old(repo.photoChecks) && old(repo.nextId) !in old(repo.challengePhotos)
    ensures repo.photoChecks == old(repo.photoChecks)[checkId :=
      PhotoCheck((userId, challengeId), participationId, old(repo.nextId), round, Waiting)]
    ensures repo.challengePhotos == old(repo.challengePhotos)[old(repo.nextId) :=
      ChallengePhoto(challengeId, userId, photoUrl)]
    ensures forall userChallengeId: nat, r: int32 ::
      RoundCount(repo.photoChecks, userChallengeId, r) ==
      RoundCount(old(repo.photoChecks), userChallengeId, r) +
      (if userChallengeId == participationId && r == round then 1 else 0)
  {
    var photoId := repo.nextId;
    repo.challengePhotos := repo.challengePhotos[photoId := ChallengePhoto(challengeId, userId, photoUrl)];
    checkId := photoId + 1;
    var check := PhotoCheck((userId, challengeId), participationId, photoId, round, Waiting);
    forall userChallengeId: nat, r: int32
      ensures RoundCount(repo.photoChecks[checkId := check], userChallengeId, r) ==
              RoundCount(repo.photoChecks, userChallengeId, r) +
              (if userChallengeId == participationId && r == round then 1 else 0)
    {
      RoundCountInsert(repo.photoChecks, checkId, check, userChallengeId, r);
    }
    repo.photoChecks := repo.photoChecks[checkId := check];
    repo.nextId := checkId + 1;
  }

  /**
   * Submits a photo check for the current round of a challenge, as written:
   * the round's count that the quota guard reads is the one filed under the
   * CHALLENGE's id, while the new check is filed under the participation
   * record's id. On success the photo and one WAITING check stamped with the
   * challenge's round are saved and no existing check changes; on rejection
   * nothing changes.
   */
  method AddPhotoCheck(repo: Repositories, challengeId: nat, userId: nat, photoUrl: string)
    returns (r: Result<nat>)
    requires repo.Valid()
    modifies repo`photoChecks, repo`challengePhotos, repo`nextId
    ensures repo.Valid()
    ensures challengeId !in repo.challenges ==> r == Err(NotFound)
    ensures challengeId in repo.challenges ==>
      var c := repo.challenges[challengeId];
      var key := (userId, challengeId);
      var guard := SubmissionGuard(c.status, userId in repo.users,
                                   if key in repo.userChallenges then Some(repo.userChallenges[key]) else None,
                                   RoundCount(old(repo.photoChecks), challengeId, c.round),
                                   c.checkTimesPerRound);
      (r.Ok? <==> guard == Done) && (r.Err? ==> guard == Rejected(r.error))
    ensures r.Err? ==>
      && repo.photoChecks == old(repo.photoChecks)
      && repo.challengePhotos == old(repo.challengePhotos)
      && repo.nextId == old(repo.nextId)
    ensures r.Ok? ==>
      var c := repo.challenges[challengeId];
      var participation := repo.userChallenges[(userId, challengeId)];
      && r.value !in old(repo.photoChecks)
      && repo.photoChecks == old(repo.photoChecks)[r.value :=
           PhotoCheck((userId, challengeId), participation.id, old(repo.nextId), c.round, Waiting)]
      && repo.challengePhotos == old(repo.challengePhotos)[old(repo.nextId) :=
           ChallengePhoto(challengeId, userId, photoUrl)]
      && RoundCount(repo.photoChecks, participation.id, c.round) ==
         RoundCount(old(repo.photoChecks), participation.id, c.round) + 1
  {
    if challengeId !in repo.challenges {
      return Err(NotFound);
    }
    var challenge := repo.challenges[challengeId];
    var key := (userId, challengeId);
    var participation := if key in repo.userChallenges then Some(repo.userChallenges[key]) else None;
    var guard := SubmissionGuard(challenge.status, userId in repo.users, participation,
                                 RoundCount(repo.photoChecks, challengeId, challenge.round),
                                 challenge.checkTimesPerRound);
    if guard.Rejected? {
      return Err(guard.error);
    }
    var checkId := SaveSubmission(repo, challengeId, userId, photoUrl, participation.value.id, challenge.round);
    return Ok(checkId);
  }

  /**
   * The quota as AddPhotoCheck applies it lets a participant whose round is
   * already full submit again: here the participant (record 5, challenge 2)
   * has filed one check in round 1 of a challenge that allows one per round,
   * yet the count under the challenge's id is 0 and every guard passes.
   */
  lemma QuotaIgnoresOwnChecks()
    ensures
      var checks := map[7 := PhotoCheck((1, 2), 5, 6, 1, Waiting)];
      var participation := UserChallenge(5, 1, 2, UserChallengeStatus.InProgress, 0);
      && RoundCount(checks, participation.id, 1) == 1
      && SubmissionGuard(ChallengeStatus.InProgress, true, Some(participation),
                         RoundCount(checks, 2, 1), 1) == Done
  {
    var checks := map[7 := PhotoCheck((1, 2), 5, 6, 1, Waiting)];
    assert RoundChecks(checks, 5, 1) == {7};
    assert RoundChecks(checks, 2, 1) == {};
  }

  /**
   * Submission with the quota counted per participation record, as the
   * repository query's name and the rejection message intend: a round
   * never holds more than `checkTimesPerRound` checks of one participant
   * once it held at most that many.
   */
  method AddPhotoCheckPerParticipant(repo: Repositories, challengeId: nat, userId: nat, photoUrl: string)
    returns (r: Result<nat>)
    requires repo.Valid()
    modifies repo`photoChecks, repo`challengePhotos, repo`nextId
    ensures repo.Valid()
    ensures challengeId !in repo.challenges ==> r == Err(NotFound)
    ensures challengeId in repo.challenges ==>
      var c := repo.challenges[challengeId];
      var key := (userId, challengeId);
      var guard := SubmissionGuard(c.status, userId in repo.users,
                                   if key in repo.userChallenges then Some(repo.userChallenges[key]) else None,
                                   if key in repo.userChallenges
                                   then RoundCount(old(repo.photoChecks), repo.userChallenges[key].id, c.round)
                                   else 0,
                                   c.checkTimesPerRound);
      (r.Ok? <==> guard == Done) && (r.Err? ==> guard == Rejected(r.error))
    ensures r.Err? ==>
      && repo.photoChecks == old(repo.photoChecks)
      && repo.challengePhotos == old(repo.challengePhotos)
      && repo.nextId == old(repo.nextId)
    ensures r.Ok? ==>
      var c := repo.challenges[challengeId];
      var participation := repo.userChallenges[(userId, challengeId)];
      && r.value !in old(repo.photoChecks)
      && repo.photoChecks == old(repo.photoChecks)[r.value :=
           PhotoCheck((userId, challengeId), participation.id, old(repo.nextId), c.round, Waiting)]
      && RoundCount(repo.photoChecks, participation.id, c.round) ==
         RoundCount(old(repo.photoChecks), participation.id, c.round) + 1
      && RoundCount(repo.photoChecks, participation.id, c.round) <= c.checkTimesPerRound as int
    ensures challengeId in repo.challenges && (userId, challengeId) in repo.userChallenges ==>
      var c := repo.challenges[challengeId];
      var participation := repo.userChallenges[(userId, challengeId)];
      RoundCount(old(repo.photoChecks), participation.id, c.round) <= c.checkTimesPerRound as int ==>
      RoundCount(repo.photoChecks, participation.id, c.round) <= c.checkTimesPerRound as int
  {
    if challengeId !in repo.challenges {
      return Err(NotFound);
    }
    var challenge := repo.challenges[challengeId];
    var key := (userId, challengeId);
    var participation := if key in repo.userChallenges then Some(repo.userChallenges[key]) else None;
    var counted := if participation.Some?
                   then RoundCount(repo.photoChecks, participation.value.id, challenge.round) else 0;
    var guard := SubmissionGuard(challenge.status, userId in repo.users, participation,
                                 counted, challenge.checkTimesPerRound);
    if guard.Rejected? {
      return Err(guard.error);
    }
    var checkId := SaveSubmission(repo, challengeId, userId, photoUrl, participation.value.id, challenge.round);
    return Ok(checkId);
  }

  /**
   * A fresh store where host 1 has created an in-progress challenge that
   * allows one check per round and user 2 has not joined yet.
   */
  method CreatedChallenge() returns (repo: Repositories, challengeId: nat)
    ensures fresh(repo) && repo.Valid()
    ensures challengeId in repo.challenges && (2, challengeId) !in repo.userChallenges
    ensures forall c :: c in repo.challenges.Values ==> fresh(c)
    ensures repo.challenges[challengeId].status == ChallengeStatus.InProgress
    ensures repo.challenges[challengeId].checkTimesPerRound == 1
    ensures repo.challenges[challengeId].userCount == 0
    ensures repo.challenges[challengeId].userCountLimit == 10
    ensures 2 in repo.users
    ensures repo.photoChecks == map[]
  {
    repo := new Repositories(map[1 := User(0), 2 := User(0)]);
    var req := ChallengeRequest("walk", "a daily walk", EveryDay, 1, 0, 10, 0, 10, false, []);
    var created := ChallengeService.Create(repo, req, 1, "", [], 0);
    challengeId := created.value;
  }

  /** The store above after user 2 has joined the challenge. */
  method JoinedChallenge() returns (repo: Repositories, challengeId: nat)
    ensures fresh(repo) && repo.Valid()
    ensures challengeId in repo.challenges && (2, challengeId) in repo.userChallenges
    ensures repo.challenges[challengeId].status == ChallengeStatus.InProgress
    ensures repo.challenges[challengeId].checkTimesPerRound == 1
    ensures 2 in repo.users
    ensures repo.userChallenges[(2, challengeId)].status == UserChallengeStatus.InProgress
    ensures repo.userChallenges[(2, challengeId)].id != challengeId
    ensures repo.photoChecks == map[]
  {
    repo, challengeId := CreatedChallenge();
    var joined := ChallengeService.Join(repo, challengeId, 2, true);
    assert joined == Done;
  }

  /**
   * The as-written quota in a whole flow: a participant of a challenge that
   * allows one check per round submits twice in the same round, and both
   * submissions are accepted.
   */
  method SecondSubmissionAsWritten() returns (first: Result<nat>, second: Result<nat>)
    ensures first.Ok? && second.Ok?
  {
    var repo, challengeId := JoinedChallenge();
    var checks := repo.photoChecks;
    assert RoundChecks(checks, challengeId, repo.challenges[challengeId].round) == {};
    first := AddPhotoCheck(repo, challengeId, 2, "first.jpg");
    RoundCountInsert(checks, first.value, repo.photoChecks[first.value],
                     challengeId, repo.challenges[challengeId].round);
    second := AddPhotoCheck(repo, challengeId, 2, "second.jpg");
  }

  /**
   * The same flow with the quota counted per participation record: the
   * second submission of the round is rejected.
   */
  method SecondSubmissionPerParticipant() returns (first: Result<nat>, second: Result<nat>)
    ensures first.Ok? && second == Err(QuotaExceeded)
  {
    var repo, challengeId := JoinedChallenge();
    var participationId := repo.userChallenges[(2, challengeId)].id;
    assert RoundChecks(repo.photoChecks, participationId, repo.challenges[challengeId].round) == {};
    first := AddPhotoCheckPerParticipant(repo, challengeId, 2, "first.jpg");
    second := AddPhotoCheckPerParticipant(repo, challengeId, 2, "second.jpg");
  }

  // ---------------------------------------------------------------------------
  // Batch review
  // ---------------------------------------------------------------------------

  /**
   * The authorization of a batch review, in the order it is checked: the
   * reviewer exists, the batch is not empty, its FIRST check exists, that
   * check's challenge exists, and the reviewer hosts that challenge. No
   * other check of the batch is looked at.
   */
  function ReviewGate(repo: Repositories, ids: seq<nat>, userId: nat): (r: Outcome)
    reads repo, repo.challenges.Values
    ensures r == Done <==>
      && userId in repo.users && |ids| > 0 && ids[0] in repo.photoChecks
      && repo.photoChecks[ids[0]].owner.1 in repo.challenges
      && repo.challenges[repo.photoChecks[ids[0]].owner.1].host == userId
    ensures r == Rejected(Unauthorized) <==>
      && userId in repo.users && |ids| > 0 && ids[0] in repo.photoChecks
      && repo.photoChecks[ids[0]].owner.1 in repo.challenges
      && repo.challenges[repo.photoChecks[ids[0]].owner.1].host != userId
    ensures r == Rejected(EmptyBatch) <==> userId in repo.users && |ids| == 0
  {
    if userId !in repo.users then Rejected(NotFound)
    else if |ids| == 0 then Rejected(EmptyBatch)
    else if ids[0] !in repo.photoChecks then Rejected(NotFound)
    else if repo.photoChecks[ids[0]].owner.1 !in repo.challenges then Rejected(NotFound)
    else if repo.challenges[repo.photoChecks[ids[0]].owner.1].host != userId then Rejected(Unauthorized)
    else Done
  }

  /**
   * A batch can be given `outcome` when every id names a stored check that
   * does not have that status yet and no id occurs twice.
   */
  predicate BatchReviewable(photoChecks: map<nat, PhotoCheck>, ids: seq<nat>, outcome: PhotoCheckStatus)
  {
    && (forall i :: 0 <= i < |ids| ==> ids[i] in photoChecks && photoChecks[ids[i]].status != outcome)
    && (forall i, j :: 0 <= i < j < |ids| ==> ids[i] != ids[j])
  }

  /** `after` is `before` with exactly the checks listed in `ids` set to `outcome`. */
  predicate Reviewed(before: map<nat, PhotoCheck>, after: map<nat, PhotoCheck>,
                     ids: seq<nat>, outcome: PhotoCheckStatus)
  {
    && after.Keys == before.Keys
    && forall id :: id in before ==>
         after[id] == if id in ids then before[id].(status := outcome) else before[id]
  }

  /** The error a batch reports for a check that already has the requested status. */
  function AlreadyReviewed(outcome: PhotoCheckStatus): Error
  {
    if outcome == Pass then AlreadyPassed else AlreadyFailed
  }

  /**
   * The loop of a batch review on a copy of the photo-check table: each
   * listed check in turn takes `outcome`, and the first missing id or check
   * already at `outcome` stops the loop with its error.
   */
  method ApplyOutcome(photoChecks: map<nat, PhotoCheck>, ids: seq<nat>, outcome: PhotoCheckStatus)
    returns (r: Result<map<nat, PhotoCheck>>)
    ensures r.Ok? <==> BatchReviewable(photoChecks, ids, outcome)
    ensures r.Ok? ==> Reviewed(photoChecks, r.value, ids, outcome)
    ensures r.Err? ==> r.error == NotFound || r.error == AlreadyReviewed(outcome)
  {
    var checks := photoChecks;
    var i := 0;
    while i < |ids|
      invariant 0 <= i <= |ids|
      invariant checks.Keys == photoChecks.Keys
      invariant forall id :: id in photoChecks ==>
        checks[id] == if id in ids[..i] then photoChecks[id].(status := outcome) else photoChecks[id]
      invariant BatchReviewable(photoChecks, ids[..i], outcome)
    {
      var id := ids[i];
      if id !in checks {
        return Err(NotFound);
      }
      if checks[id].status == outcome {
        if id in ids[..i] {
          var j :| 0 <= j < i && ids[j] == id;
          assert ids[j] == ids[i];
        }
        return Err(AlreadyReviewed(outcome));
      }
      checks := checks[id := checks[id].(status := outcome)];
      assert ids[..i + 1] == ids[..i] + [id];
      i := i + 1;
    }
    assert ids[..i] == ids;
    return Ok(checks);
  }

  /**
   * Gives every check of a batch the status `outcome`, after the
   * authorization above. A missing id or a check that already has `outcome`
   * (which includes an id listed twice) rejects the whole batch and keeps
   * no change; a check with the opposite final status is accepted.
   */
  method Review(repo: Repositories, ids: seq<nat>, userId: nat, outcome: PhotoCheckStatus)
    returns (r: Outcome)
    requires outcome != Waiting
    modifies repo`photoChecks
    ensures r == Done <==>
      old(ReviewGate(repo, ids, userId)) == Done && BatchReviewable(old(repo.photoChecks), ids, outcome)
    ensures old(ReviewGate(repo, ids, userId)) != Done ==> r == old(ReviewGate(repo, ids, userId))
    ensures old(ReviewGate(repo, ids, userId)) == Done && r != Done ==>
      r == Rejected(NotFound) || r == Rejected(AlreadyReviewed(outcome))
    ensures r == Done ==> Reviewed(old(repo.photoChecks), repo.photoChecks, ids, outcome)
    ensures r != Done ==> repo.photoChecks == old(repo.photoChecks)
  {
    r := ReviewGate(repo, ids, userId);
    if r != Done {
      return;
    }
    var applied := ApplyOutcome(repo.photoChecks, ids, outcome);
    if applied.Err? {
      return Rejected(applied.error);
    }
    repo.photoChecks := applied.value;
  }

  /** Passes a batch of photo checks. */
  method PassPhotoCheck(repo: Repositories, ids: seq<nat>, userId: nat) returns (r: Outcome)
    modifies repo`photoChecks
    ensures r == Done <==>
      old(ReviewGate(repo, ids, userId)) == Done && BatchReviewable(old(repo.photoChecks), ids, Pass)
    ensures old(ReviewGate(repo, ids, userId)) != Done ==> r == old(ReviewGate(repo, ids, userId))
    ensures old(ReviewGate(repo, ids, userId)) == Done && r != Done ==>
      r == Rejected(NotFound) || r == Rejected(AlreadyPassed)
    ensures r == Done ==> Reviewed(old(repo.photoChecks), repo.photoChecks, ids, Pass)
    ensures r != Done ==> repo.photoChecks == old(repo.photoChecks)
  {
    r := Review(repo, ids, userId, Pass);
  }

  /** Fails a batch of photo checks. */
  method FailPhotoCheck(repo: Repositories, ids: seq<nat>, userId: nat) returns (r: Outcome)
    modifies repo`photoChecks
    ensures r == Done <==>
      old(ReviewGate(repo, ids, userId)) == Done && BatchReviewable(old(repo.photoChecks), ids, Fail)
    ensures old(ReviewGate(repo, ids, userId)) != Done ==> r == old(ReviewGate(repo, ids, userId))
    ensures old(ReviewGate(repo, ids, userId)) == Done && r != Done ==>
      r == Rejected(NotFound) || r == Rejected(AlreadyFailed)
    ensures r == Done ==> Reviewed(old(repo.photoChecks), repo.photoChecks, ids, Fail)
    ensures r != Done ==> repo.photoChecks == old(repo.photoChecks)
  {
    r := Review(repo, ids, userId, Fail);
  }
}
