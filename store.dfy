/**
 * The persistent entities next to Challenge and the repositories that hold
 * them, as in-memory tables. Every saved entity draws its id from one
 * counter, `nextId`, so a newly saved record never collides with a stored one.
 */
module Store {
  import opened Common
  import opened ChallengeDomain

  /** A user; only the participation counter matters to the rules modelled. */
  datatype User = User(challengeCount: int32)

  /** Only IN_PROGRESS is read by the rules modelled; the other statuses stand for the rest. */
  datatype UserChallengeStatus = InProgress | Abandoned | Completed

  /** One user's participation in one challenge. */
  datatype UserChallenge = UserChallenge(
    id: nat,
    userId: nat,
    challengeId: nat,
    status: UserChallengeStatus,
    maxProgress: int32)

  datatype Tag = Tag(id: nat, name: string)

  datatype Award = OneParticipation | FiftyParticipation

  datatype Achievement = Achievement(userId: nat, award: Award)

  /** The stored photo behind one photo check. */
  datatype ChallengePhoto = ChallengePhoto(challengeId: nat, userId: nat, photoUrl: string)

  datatype PhotoCheckStatus = Waiting | Pass | Fail

  /**
   * One submitted photo check. `owner` is the (user id, challenge id) pair of
   * the UserChallenge it belongs to and `userChallengeId` that record's id.
   */
  datatype PhotoCheck = PhotoCheck(
    owner: (nat, nat),
    userChallengeId: nat,
    challengePhotoId: nat,
    round: int32,
    status: PhotoCheckStatus)

  /** The number of participation records of challenge `challengeId`. */
  function ParticipantCount(userChallenges: map<(nat, nat), UserChallenge>, challengeId: nat): (n: nat)
    ensures n == 0 <==> forall key :: key in userChallenges ==> key.1 != challengeId
  {
    var keys := set key | key in userChallenges && key.1 == challengeId;
    assert forall key :: key in userChallenges && key.1 == challengeId ==> key in keys;
    |keys|
  }

  class Repositories {
    var challenges: map<nat, Challenge>
    var users: map<nat, User>
    var userChallenges: map<(nat, nat), UserChallenge>
    var tags: map<string, nat>  // tag name -> tag id
    var achievements: seq<Achievement>
    var challengePhotos: map<nat, ChallengePhoto>
    var photoChecks: map<nat, PhotoCheck>
    var nextId: nat

    /**
     * Table invariants: every stored challenge carries its own key as id (so
     * distinct keys hold distinct objects), and every id in use (challenge,
     * participation record, tag, challenge photo, photo check) is below
     * `nextId`, so that a newly drawn id is unused.
     */
    ghost predicate Valid()
      reads this, challenges.Values
    {
      && (forall id :: id in challenges ==> challenges[id].id == id && id < nextId)
      && (forall key: (nat, nat) :: key in userChallenges ==>
            key.1 < nextId && userChallenges[key].id < nextId)
      && (forall name :: name in tags ==> tags[name] < nextId)
      && (forall id :: id in challengePhotos ==> id < nextId)
      && (forall id :: id in photoChecks ==> id < nextId)
    }

    constructor (users: map<nat, User>)
      ensures Valid()
      ensures this.users == users
      ensures challenges == map[] && userChallenges == map[] && tags == map[]
      ensures achievements == [] && challengePhotos == map[] && photoChecks == map[]
    {
      this.users := users;
      challenges, userChallenges, tags := map[], map[], map[];
      achievements, challengePhotos, photoChecks := [], map[], map[];
      nextId := 0;
    }
  }
}
