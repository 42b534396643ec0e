# Challengers: challenge progress and photo-check rules in Dafny

Challengers is a habit-challenge service. A host opens a challenge with a
date range, a check cadence (`checkTimesPerRound` photo checks per round)
and a participant limit. Users join it, submit photo checks round by round,
and the host passes or fails those checks. This project models the rules
behind that flow:

- the `Challenge` entity (module `ChallengeDomain`, file `challenge.dfy`): a
  class with the entity's fields. Its methods update those fields in place:
  date validation on creation, the initial status and round, the
  participant, round and failure-point counters, the review-rating
  bookkeeping and the lifecycle status setters;
- the repositories (module `Store`, file `store.dfy`): one class holding
  id-keyed tables for challenges, users, participation records
  ("user challenges", keyed by (user id, challenge id)), tags (name to id),
  awards, challenge photos and photo checks. Every save draws a fresh id
  from one counter;
- the challenge use cases (module `ChallengeService`): create, delete, the
  penalty estimate of the detail view, join, participation awards and tag
  find-or-create;
- the photo-check workflow (module `PhotoCheckService`): submission with its
  guards and per-round quota, and the host's batch pass and fail.

Shared error kinds, `Result`/`Outcome`/`Option` and Java's 32-bit integer
arithmetic live in module `Common`. Java `int` counters are `int32` values,
and `++`, `--` and `+=` wrap around modulo 2^32 (`Wrap32`). The `long`
division of the penalty estimate truncates toward zero (`JavaDiv`). Dates
are day numbers, and the current date is the parameter `today`.

Each service operation is a chain of guards followed by updates. An
operation that throws is modelled as returning `Err(..)` or `Rejected(..)`,
and every such contract states that the tables are then unchanged. This is
the transaction rollback of the service methods. A batch review works on a
copy of the photo-check table and stores it only when every check of the
batch was accepted.

In these places the code is looser than the rules one would expect, and
the model follows the code:

- A photo check that is PASS can be failed and one that is FAIL can be
  passed. Only re-applying the same outcome is rejected.
- A batch review checks authorization against the challenge of the first
  id only.
- Join compares `userCount == userCountLimit`, not `>=`.
- Creation saves the host's participation record but does not call
  `joinUser`, so the host is not counted in `userCount`.
- The per-round quota counts under the challenge's id; see "Findings".

## Model

| member | source | states |
|---|---|---|
| ChallengeDomain.ValidateDates | src/main/java/com/challengers/challenge/domain/Challenge.java:108-113 | accepts exactly when the start date is strictly before the end date; otherwise rejects with InvalidDateRange |
| ChallengeDomain.StarMean | src/main/java/com/challengers/challenge/domain/Challenge.java:161-163 | 0 when there are no reviews, so there is no division by zero; otherwise within 0.05 of the mean rating and a whole number of tenths |
| ChallengeDomain.PhotoUrls | src/main/java/com/challengers/challenge/domain/Challenge.java:63-67 | one URL per example photo, the i-th URL being the i-th photo's |
| ChallengeDomain.Challenge.FromRequest | src/main/java/com/challengers/challenge/domain/Challenge.java:69-96 | the built entity copies the request's fields; every counter and aggregate is zero, the status is READY and there are no example photos |
| ChallengeDomain.Challenge.Build | src/main/java/com/challengers/challenge/domain/Challenge.java:98-104 | a fresh entity with the given host, image and example-photo URLs in order, zero counters, status READY and round 0 |
| ChallengeDomain.Challenge.Create | src/main/java/com/challengers/challenge/domain/Challenge.java:98-106 | rejects exactly the empty or inverted date ranges; otherwise a fresh challenge with the given host, image and photos, zero counters, READY with round 0 when it starts after today, else IN_PROGRESS with round 1, so READY holds exactly when round is 0 |
| ChallengeDomain.Challenge.SetHost | src/main/java/com/challengers/challenge/domain/Challenge.java:120-122 | sets the host and no other field |
| ChallengeDomain.Challenge.SetImageUrl | src/main/java/com/challengers/challenge/domain/Challenge.java:124-126 | sets the image URL and no other field |
| ChallengeDomain.Challenge.SetId | src/main/java/com/challengers/challenge/domain/Challenge.java:20-22 | sets the id and no other field |
| ChallengeDomain.Challenge.ExamplePhotoUrls | src/main/java/com/challengers/challenge/domain/Challenge.java:63-67 | one URL per stored example photo |
| ChallengeDomain.Challenge.AddExamplePhotos | src/main/java/com/challengers/challenge/domain/Challenge.java:55-61 | appends one photo per URL, keeps the old photos as a prefix, and the URL list becomes the old one followed by the given URLs |
| ChallengeDomain.Challenge.InitStatus | src/main/java/com/challengers/challenge/domain/Challenge.java:165-171 | start after today gives READY with the round untouched; otherwise IN_PROGRESS with round 1; nothing else changes |
| ChallengeDomain.Challenge.JoinUser | src/main/java/com/challengers/challenge/domain/Challenge.java:128-130 | userCount grows by exactly 1 (wrapping at the int range) and no other field changes |
| ChallengeDomain.Challenge.AddReviewRelation | src/main/java/com/challengers/challenge/domain/Challenge.java:132-136 | count up by one, sum up by the rating, stored mean recomputed from both |
| ChallengeDomain.Challenge.DeleteReviewRelation | src/main/java/com/challengers/challenge/domain/Challenge.java:138-142 | count down by one, sum down by the rating, stored mean recomputed from both |
| ChallengeDomain.Challenge.UpdateReviewRelation | src/main/java/com/challengers/challenge/domain/Challenge.java:144-147 | the count is untouched and the sum moves by new minus old rating; mean recomputed |
| ChallengeDomain.Challenge.UpdateStarRating | src/main/java/com/challengers/challenge/domain/Challenge.java:161-163 | the stored mean matches the sum and count, and is 0 when the count is 0 |
| ChallengeDomain.Challenge.ToInProgress | src/main/java/com/challengers/challenge/domain/Challenge.java:149-151 | status becomes IN_PROGRESS whatever it was; no other field changes |
| ChallengeDomain.Challenge.ToValidate | src/main/java/com/challengers/challenge/domain/Challenge.java:153-155 | status becomes VALIDATE whatever it was; no other field changes |
| ChallengeDomain.Challenge.ToFinish | src/main/java/com/challengers/challenge/domain/Challenge.java:157-159 | status becomes FINISH whatever it was; no other field changes |
| ChallengeDomain.Challenge.UpdateRound | src/main/java/com/challengers/challenge/domain/Challenge.java:173-175 | the round grows by exactly 1 (wrapping at the int range) |
| ChallengeDomain.Challenge.AddFailedPoint | src/main/java/com/challengers/challenge/domain/Challenge.java:177-179 | adds the long amount truncated to int; without overflow the sum is exact and never decreases for a non-negative amount |
| ChallengeDomain.AddThenDeleteReview | src/main/java/com/challengers/challenge/domain/Challenge.java:132-142 | adding and then deleting the same rating restores the count, the sum and the stored mean, even when the count wraps; no other field is touched |
| Common.WrapIncrementDecrement | src/main/java/com/challengers/challenge/domain/Challenge.java:133-139 | an int incremented and then decremented is unchanged, wrap-around included |
| Store.ParticipantCount | src/main/java/com/challengers/challenge/service/ChallengeService.java:91 | the number of participation records of a challenge; 0 exactly when no record names it |
| ChallengeService.AwardFor | src/main/java/com/challengers/challenge/service/ChallengeService.java:152-168 | ONE_PARTICIPATION exactly at count 1, FIFTY_PARTICIPATION exactly at count 50, nothing otherwise |
| ChallengeService.AwardsFor | src/main/java/com/challengers/challenge/service/ChallengeService.java:152-168 | at most one award record, for that user, and exactly when an award is due |
| ChallengeService.UpdateChallengeAchievement | src/main/java/com/challengers/challenge/service/ChallengeService.java:152-168 | appends exactly the due award records and nothing else |
| ChallengeService.FindOrCreateTag | src/main/java/com/challengers/challenge/service/ChallengeService.java:170-177 | an existing tag is returned without any insert; otherwise exactly one tag with that name is inserted under the counter's next id, which no stored tag uses |
| ChallengeService.FindOrCreateTags | src/main/java/com/challengers/challenge/service/ChallengeService.java:61-62 | afterwards every requested name is a tag, no other name is added and existing tags keep their ids |
| ChallengeService.SaveChallenge | src/main/java/com/challengers/challenge/service/ChallengeService.java:58-59 | the challenge is stored under a fresh id, which it carries as its own id |
| ChallengeService.SaveUserChallenge | src/main/java/com/challengers/challenge/service/ChallengeService.java:139 | exactly one participation record is added, IN_PROGRESS with zero progress, under an id no other record uses |
| ChallengeService.SaveHostParticipation | src/main/java/com/challengers/challenge/service/ChallengeService.java:64-68 | the host's record is saved, the host's challengeCount grows by one and the award for the new count is given |
| ChallengeService.SaveCreated | src/main/java/com/challengers/challenge/service/ChallengeService.java:58-68 | new challenge under a fresh id, requested tags present, exactly one new participation record (the host's), host count up by one, due award given |
| ChallengeService.Create | src/main/java/com/challengers/challenge/service/ChallengeService.java:47-71 | an unknown host gives NotFound, a bad date range gives InvalidDateRange, and neither changes anything; on success exactly one challenge and one participation record (the host's, IN_PROGRESS with zero progress) are added, existing records are unchanged, only the host's count changes (by one), the requested tags exist with existing tags keeping their ids, and the challenge carries the given or default image |
| ChallengeService.SoleParticipantIsHost | src/main/java/com/challengers/challenge/service/ChallengeService.java:91-97 | when the count is 1 and the host has a record, that record is the only one, and removing it leaves none |
| ChallengeService.Delete | src/main/java/com/challengers/challenge/service/ChallengeService.java:87-102 | the exact error chain (missing, not the host, participant count other than 1, host record missing); on success exactly the challenge and the host's record are removed and no record of the challenge is left; on error nothing changes |
| ChallengeService.SumMaxProgressRemove | src/main/java/com/challengers/challenge/service/ChallengeService.java:110-114 | the progress sum does not depend on the order in which records are added up |
| ChallengeService.SumMaxProgressNonNegative | src/main/java/com/challengers/challenge/service/ChallengeService.java:110-114 | the progress sum is non-negative when every record's progress is |
| ChallengeService.PenaltyEstimate | src/main/java/com/challengers/challenge/service/ChallengeService.java:119 | truncating division of failedPoint by progress plus maxProgress, times maxProgress; never negative for non-negative inputs |
| ChallengeService.PenaltyAtMostFailedPoint | src/main/java/com/challengers/challenge/service/ChallengeService.java:119 | with non-negative inputs the estimate lies between 0 and failedPoint; with no participant progress it is failedPoint rounded down to a multiple of maxProgress |
| ChallengeService.FindChallenge | src/main/java/com/challengers/challenge/service/ChallengeService.java:104-120 | NotFound for a missing challenge; the loop's sum equals the progress of the IN_PROGRESS records only; a zero denominator is an error; otherwise the result is the estimate |
| ChallengeService.JoinGuard | src/main/java/com/challengers/challenge/service/ChallengeService.java:124-134 | a join passes exactly when the challenge is not full, the user exists, has not joined and the join window is open; full and already-joined are reported as such; a passing join below the limit stays below it |
| ChallengeService.Join | src/main/java/com/challengers/challenge/service/ChallengeService.java:122-140 | the guard chain decides; on success userCount rises by exactly 1, userCount <= limit is preserved, exactly one IN_PROGRESS record is added, and the award uses the user's unchanged count; on failure nothing changes; no other challenge's count moves |
| ChallengeService.JoinTwice | src/main/java/com/challengers/challenge/service/ChallengeService.java:122-140 | after a successful join, joining the same pair again is rejected as full or already joined |
| PhotoCheckService.RoundCountInsert | src/main/java/com/challengers/photocheck/service/PhotoCheckService.java:67-73 | filing a check adds one to its own record-and-round count and leaves every other count unchanged |
| PhotoCheckService.SubmissionGuard | src/main/java/com/challengers/photocheck/service/PhotoCheckService.java:44-57 | a submission passes exactly when the challenge is IN_PROGRESS, the user exists and has an IN_PROGRESS participation, and the counted checks are below checkTimesPerRound; NotInProgress and QuotaExceeded are reported exactly in their cases |
| PhotoCheckService.SaveSubmission | src/main/java/com/challengers/photocheck/service/PhotoCheckService.java:59-73 | stores the photo and one WAITING check stamped with the round, under ids that no stored photo or check uses; no existing check changes; only that record's count for that round moves, by one |
| PhotoCheckService.AddPhotoCheck | src/main/java/com/challengers/photocheck/service/PhotoCheckService.java:42-76 | as written: the guard chain decides, with the quota read under the challenge's id; on success exactly one new WAITING check for the caller's record and the current round, existing checks unchanged; on failure nothing changes |
| PhotoCheckService.QuotaIgnoresOwnChecks | src/main/java/com/challengers/photocheck/service/PhotoCheckService.java:55-57 | for one concrete participant (record 5 of challenge 2, one check already filed in round 1, one check allowed per round) the count under the challenge's id is 0 and every submission guard passes |
| PhotoCheckService.AddPhotoCheckPerParticipant | src/main/java/com/challengers/photocheck/service/PhotoCheckService.java:42-76 | same as AddPhotoCheck with the quota counted per participation record; a participant never holds more than checkTimesPerRound checks in a round |
| PhotoCheckService.CreatedChallenge | src/main/java/com/challengers/challenge/service/ChallengeService.java:47-71 | on a fresh store, creating a challenge that starts today leaves it IN_PROGRESS with one check per round and no participant counted, the second user still stored and not yet joined, and no photo check |
| PhotoCheckService.JoinedChallenge | src/main/java/com/challengers/challenge/service/ChallengeService.java:122-140 | a second user's join of that challenge succeeds and gives them an IN_PROGRESS record whose id differs from the challenge's |
| PhotoCheckService.SecondSubmissionAsWritten | src/main/java/com/challengers/photocheck/service/PhotoCheckService.java:55-57 | in the create, join, submit, submit flow with one check allowed per round, the as-written quota accepts both submissions |
| PhotoCheckService.SecondSubmissionPerParticipant | src/main/java/com/challengers/photocheck/service/PhotoCheckService.java:55-57 | in the same flow the per-participant quota accepts the first submission and rejects the second with QuotaExceeded |
| PhotoCheckService.ReviewGate | src/main/java/com/challengers/photocheck/service/PhotoCheckService.java:81-86 | a review is authorized exactly when the reviewer exists, the batch is non-empty, its first check and that check's challenge exist and the reviewer hosts it; Unauthorized and EmptyBatch are reported exactly in their cases |
| PhotoCheckService.ApplyOutcome | src/main/java/com/challengers/photocheck/service/PhotoCheckService.java:88-94 | the loop succeeds exactly when every id names a check not yet at the outcome and no id repeats; then exactly the listed checks take the outcome; otherwise it reports NotFound or the already-reviewed error |
| PhotoCheckService.Review | src/main/java/com/challengers/photocheck/service/PhotoCheckService.java:79-114 | succeeds exactly when authorized and every id names a check not yet at that outcome with no id repeated; then exactly the listed checks take the outcome; otherwise the table is unchanged |
| PhotoCheckService.PassPhotoCheck | src/main/java/com/challengers/photocheck/service/PhotoCheckService.java:79-95 | every listed check becomes PASS and the others are unchanged; a missing, already-PASS or repeated id rejects the batch with no change; a FAIL check can be passed |
| PhotoCheckService.FailPhotoCheck | src/main/java/com/challengers/photocheck/service/PhotoCheckService.java:98-114 | every listed check becomes FAIL and the others are unchanged; a missing, already-FAIL or repeated id rejects the batch with no change; a PASS check can be failed |

## Left out

- Image uploads and deletions on the storage service are I/O. An uploaded image's URL is a parameter (`uploadedImageUrl`, `examplePhotoUrls`, `photoUrl`), and the deletions that `delete` performs are not modelled.
- `update` (changing a challenge's image and introduction) is not modelled. It is an image replacement on the storage service plus two field assignments.
- `findReadyOrInProgressChallenges` is not modelled. It is pagination and response assembly only.
- The detail view's bookmark ("cart") lookup and the response object are not modelled. `FindChallenge` returns only the penalty estimate.
- `ChallengeJoinManager.canJoin` and `ChallengeJoinManager.getMaxProgress` are not part of this model. They are the parameters `canJoin` and `maxProgress`.
- `ChallengeTag.associate`, `ChallengeRequest.toChallenge`, `UserChallenge.create`, `User.update`, `PhotoCheck.pass`/`fail` and the `ExamplePhoto` entity are not part of this model.
  - Tags are found or created, but no challenge-tag link is stored.
  - A built challenge copies the request's fields with zero counters.
  - A new participation record is IN_PROGRESS with zero progress.
  - `pass`/`fail` set the status.
  - `User.update` sets the user's participation count.
- The entity's photo description, rule text and category fields are not modelled. No rule reads them.
- ChallengeDomain.StarMean: Float arithmetic is exact real arithmetic here. `Math.round` is floor(x + 0.5), with no float rounding error.
- ChallengeService.FindChallenge: the `long` sum of participant progress is unbounded here. The 64-bit overflow of that sum is not modelled.
- Concurrent joins and reviews are not modelled; the model is sequential. Each service method is one atomic step.
- The user's point balance and the deposit deduction are not modelled. The creation code does not perform them either.
- `LocalDate.now()` is the parameter `today`.

## Findings

| source | as written | input that shows it | evidently intended | confidence | as-written member | corrected member |
|---|---|---|---|---|---|---|
| src/main/java/com/challengers/photocheck/service/PhotoCheckService.java:55-57 | the quota query `countByUserChallengeIdAndRound` is given `challenge.getId()`, but each check is filed under its participation record's id | challenge 2 allows 1 check per round; the participant's record has id 5 and already holds one check in round 1; the count under id 2 is 0, so a second check is accepted | count the caller's own checks for the round, i.e. pass `userChallenge.getId()` | high; not executed | PhotoCheckService.QuotaIgnoresOwnChecks | PhotoCheckService.AddPhotoCheckPerParticipant |
