/**
 * The Challenge entity: its creation-time date validation and initial
 * status, its participant, round and failure-point counters, its review
 * bookkeeping (a sum of star ratings and a count, with the rounded mean
 * kept beside them) and its lifecycle status setters.
 *
 * Dates are day numbers; the current date is passed in as `today`.
 */
module ChallengeDomain {
  import opened Common

  datatype ChallengeStatus = Ready | InProgress | Validate | Finish

  datatype CheckFrequencyType = EveryDay | EveryWeek

  /** One example photo of a challenge; the back-reference to the challenge is implicit. */
  datatype ExamplePhoto = ExamplePhoto(photoUrl: string)

  /** The fields of a creation request that the Challenge is built from. */
  datatype ChallengeRequest = ChallengeRequest(
    name: string,
    introduction: string,
    checkFrequencyType: CheckFrequencyType,
    checkTimesPerRound: int32,
    startDate: int,
    endDate: int,
    depositPoint: int32,
    userCountLimit: int32,
    hasImage: bool,
    tags: seq<string>)

  /**
   * Creation-time date check: the request is rejected when the start date
   * equals or follows the end date.
   */
  function ValidateDates(startDate: int, endDate: int): (r: Outcome)
    ensures r == Done <==> startDate < endDate
    ensures r != Done ==> r == Rejected(InvalidDateRange)
  {
    if startDate == endDate || startDate > endDate then Rejected(InvalidDateRange) else Done
  }

  /**
   * The stored star rating: 0 when there are no reviews, otherwise the mean
   * rating rounded half-up to one decimal place.
   */
  function StarMean(totalStarRating: real, reviewCount: int32): (r: real)
    ensures reviewCount == 0 ==> r == 0.0
    ensures reviewCount != 0 ==>
      var mean := totalStarRating / reviewCount as real;
      mean - 0.05 < r <= mean + 0.05
    ensures (r * 10.0).Floor as real == r * 10.0
  {
    if reviewCount == 0 then 0.0
    else ((totalStarRating / reviewCount as real) * 10.0 + 0.5).Floor as real / 10.0
  }

  /** The URLs of a list of example photos, in order. */
  function PhotoUrls(photos: seq<ExamplePhoto>): (urls: seq<string>)
    ensures |urls| == |photos|
    ensures forall i :: 0 <= i < |photos| ==> urls[i] == photos[i].photoUrl
  {
    if photos == [] then [] else [photos[0].photoUrl] + PhotoUrls(photos[1..])
  }

  class Challenge {
    var id: nat
    var host: nat  // the host's user id
    var name: string
    var imageUrl: string
    var introduction: string
    var checkFrequencyType: CheckFrequencyType
    var checkTimesPerRound: int32
    var startDate: int
    var endDate: int
    var depositPoint: int32
    var totalStarRating: real
    var starRating: real
    var reviewCount: int32
    var userCount: int32
    var userCountLimit: int32
    var failedPoint: int32
    var round: int32
    var status: ChallengeStatus
    var examplePhotos: seq<ExamplePhoto>

    /**
     * The entity as built from a creation request, before its host, image,
     * example photos and status are set: the request's fields are copied and
     * every counter and aggregate starts at zero.
     */
    constructor FromRequest(req: ChallengeRequest)
      ensures name == req.name && introduction == req.introduction
      ensures checkFrequencyType == req.checkFrequencyType
      ensures checkTimesPerRound == req.checkTimesPerRound
      ensures startDate == req.startDate && endDate == req.endDate
      ensures depositPoint == req.depositPoint && userCountLimit == req.userCountLimit
      ensures id == 0 && host == 0 && imageUrl == ""
      ensures totalStarRating == 0.0 && starRating == 0.0 && reviewCount == 0
      ensures userCount == 0 && failedPoint == 0 && round == 0
      ensures status == Ready && examplePhotos == []
    {
      id, host := 0, 0;
      name, imageUrl, introduction := req.name, "", req.introduction;
      checkFrequencyType, checkTimesPerRound := req.checkFrequencyType, req.checkTimesPerRound;
      startDate, endDate := req.startDate, req.endDate;
      depositPoint := req.depositPoint;
      totalStarRating, starRating, reviewCount := 0.0, 0.0, 0;
      userCount, userCountLimit, failedPoint, round := 0, req.userCountLimit, 0, 0;
      status := Ready;
      examplePhotos := [];
    }

    /**
     * Creates a challenge from a request: rejects an empty or inverted date
     * range, otherwise builds the entity with the given host, image and
     * example photos and derives its status and round from `today`.
     */
    static method Create(req: ChallengeRequest, host: nat, imageUrl: string,
                         examplePhotoUrls: seq<string>, today: int)
      returns (r: Result<Challenge>)
      ensures r.Err? <==> !(req.startDate < req.endDate)
      ensures r.Err? ==> r.error == InvalidDateRange
      ensures r.Ok? ==> fresh(r.value)
      ensures r.Ok? ==>
        var c := r.value;
        && c.host == host && c.imageUrl == imageUrl
        && c.ExamplePhotoUrls() == examplePhotoUrls
        && c.startDate == req.startDate && c.endDate == req.endDate
        && c.checkTimesPerRound == req.checkTimesPerRound
        && c.userCountLimit == req.userCountLimit && c.userCount == 0
        && c.reviewCount == 0 && c.totalStarRating == 0.0 && c.starRating == 0.0
        && c.failedPoint == 0
        && (c.status == Ready <==> c.round == 0)
        && (if req.startDate > today then c.status == Ready else c.status == InProgress && c.round == 1)
    {
      var v := ValidateDates(req.startDate, req.endDate);
      if v.Rejected? {
        return Err(v.error);
      }
      var c := Build(req, host, imageUrl, examplePhotoUrls);
      c.InitStatus(today);
      return Ok(c);
    }

    /** The entity as built from a request, with its host, image and example photos set. */
    static method Build(req: ChallengeRequest, host: nat, imageUrl: string, examplePhotoUrls: seq<string>)
      returns (c: Challenge)
      ensures fresh(c)
      ensures c.host == host && c.imageUrl == imageUrl
      ensures c.ExamplePhotoUrls() == examplePhotoUrls
      ensures c.startDate == req.startDate && c.endDate == req.endDate
      ensures c.checkTimesPerRound == req.checkTimesPerRound
      ensures c.userCountLimit == req.userCountLimit && c.userCount == 0
      ensures c.reviewCount == 0 && c.totalStarRating == 0.0 && c.starRating == 0.0
      ensures c.failedPoint == 0 && c.status == Ready && c.round == 0
    {
      c := new Challenge.FromRequest(req);
      c.SetHost(host);
      c.SetImageUrl(imageUrl);
      c.AddExamplePhotos(examplePhotoUrls);
    }

    method SetHost(host: nat)
      modifies this`host
      ensures this.host == host
    {
      this.host := host;
    }

    method SetImageUrl(imageUrl: string)
      modifies this`imageUrl
      ensures this.imageUrl == imageUrl
    {
      this.imageUrl := imageUrl;
    }

    /** The repository's id assignment on save. */
    method SetId(id: nat)
      modifies this`id
      ensures this.id == id
    {
      this.id := id;
    }

    function ExamplePhotoUrls(): (urls: seq<string>)
      reads this`examplePhotos
      ensures |urls| == |examplePhotos|
    {
      PhotoUrls(examplePhotos)
    }

    /** Appends one example photo per URL, in the order given. */
    method AddExamplePhotos(urls: seq<string>)
      modifies this`examplePhotos
      ensures |examplePhotos| == |old(examplePhotos)| + |urls|
      ensures examplePhotos[..|old(examplePhotos)|] == old(examplePhotos)
      ensures ExamplePhotoUrls() == old(ExamplePhotoUrls()) + urls
    {
      for i := 0 to |urls|
        invariant |examplePhotos| == |old(examplePhotos)| + i
        invariant examplePhotos[..|old(examplePhotos)|] == old(examplePhotos)
        invariant ExamplePhotoUrls() == old(ExamplePhotoUrls()) + urls[..i]
      {
        examplePhotos := examplePhotos + [ExamplePhoto(urls[i])];
      }
    }

    /** A challenge that starts after today is READY; otherwise it is IN_PROGRESS in round 1. */
    method InitStatus(today: int)
      modifies this`status, this`round
      ensures startDate > today ==> status == Ready && round == old(round)
      ensures startDate <= today ==> status == InProgress && round == 1
    {
      if startDate > today {
        status := Ready;
      } else {
        status := InProgress;
        round := 1;
      }
    }

    method JoinUser()
      modifies this`userCount
      ensures userCount == Wrap32(old(userCount) as int + 1)
      ensures old(userCount) as int < MaxInt32 ==> userCount == old(userCount) + 1
    {
      userCount := Wrap32(userCount as int + 1);
    }

    method AddReviewRelation(rating: real)
      modifies this`reviewCount, this`totalStarRating, this`starRating
      ensures reviewCount == Wrap32(old(reviewCount) as int + 1)
      ensures totalStarRating == old(totalStarRating) + rating
      ensures starRating == StarMean(totalStarRating, reviewCount)
    {
      reviewCount := Wrap32(reviewCount as int + 1);
      totalStarRating := totalStarRating + rating;
      UpdateStarRating();
    }

    method DeleteReviewRelation(rating: real)
      modifies this`reviewCount, this`totalStarRating, this`starRating
      ensures reviewCount == Wrap32(old(reviewCount) as int - 1)
      ensures totalStarRating == old(totalStarRating) - rating
      ensures starRating == StarMean(totalStarRating, reviewCount)
    {
      reviewCount := Wrap32(reviewCount as int - 1);
      totalStarRating := totalStarRating - rating;
      UpdateStarRating();
    }

    /** Replaces one review's rating: the count stays, the sum moves by the difference. */
    method UpdateReviewRelation(rating: real, newRating: real)
      modifies this`totalStarRating, this`starRating
      ensures totalStarRating == old(totalStarRating) + (newRating - rating)
      ensures starRating == StarMean(totalStarRating, reviewCount)
    {
      totalStarRating := totalStarRating - rating + newRating;
      UpdateStarRating();
    }

    /** Recomputes the stored mean from the sum and the count; no division when the count is 0. */
    method UpdateStarRating()
      modifies this`starRating
      ensures starRating == StarMean(totalStarRating, reviewCount)
      ensures reviewCount == 0 ==> starRating == 0.0
    {
      starRating := StarMean(totalStarRating, reviewCount);
    }

    method ToInProgress()
      modifies this`status
      ensures status == InProgress
    {
      status := InProgress;
    }

    method ToValidate()
      modifies this`status
      ensures status == Validate
    {
      status := Validate;
    }

    method ToFinish()
      modifies this`status
      ensures status == Finish
    {
      status := Finish;
    }

    method UpdateRound()
      modifies this`round
      ensures round == Wrap32(old(round) as int + 1)
      ensures old(round) as int < MaxInt32 ==> round == old(round) + 1
    {
      round := Wrap32(round as int + 1);
    }

    /**
     * Adds a `long` amount to the `int` accumulator; the sum is computed in
     * 64 bits and truncated to 32, which is the same as wrapping it once at
     * 32 bits.
     */
    method AddFailedPoint(point: int64)
      modifies this`failedPoint
      ensures failedPoint == Wrap32(old(failedPoint) as int + point as int)
      ensures MinInt32 <= old(failedPoint) as int + point as int <= MaxInt32 ==>
        failedPoint as int == old(failedPoint) as int + point as int
      ensures 0 <= point && old(failedPoint) as int + point as int <= MaxInt32 ==>
        failedPoint >= old(failedPoint)
    {
      failedPoint := Wrap32(failedPoint as int + point as int);
    }
  }

  /**
   * Adding a review and deleting the same rating gives back the count, the
   * sum and the stored mean the challenge had before.
   */
  method AddThenDeleteReview(c: Challenge, rating: real)
    requires c.starRating == StarMean(c.totalStarRating, c.reviewCount)
    modifies c`reviewCount, c`totalStarRating, c`starRating
    ensures c.reviewCount == old(c.reviewCount)
    ensures c.totalStarRating == old(c.totalStarRating)
    ensures c.starRating == old(c.starRating)
  {
    c.AddReviewRelation(rating);
    c.DeleteReviewRelation(rating);
    WrapIncrementDecrement(old(c.reviewCount));
  }
}
