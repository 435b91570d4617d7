// The shared candidate scoring rules of backend-node/services/scoringService.js:
// tier by score, star rating rounded to one decimal, and the vehicle
// adjustment. Scores are JavaScript numbers, modelled as reals; a star rating
// is kept as its integer number of tenths, which is exactly what
// `Math.round(rating * 10) / 10` leaves.

module Scoring {
  import opened Common

  datatype Tier = Green | Yellow | Red

  function TierName(t: Tier): (s: string)
  {
    match t
    case Green => "green"
    case Yellow => "yellow"
    case Red => "red"
  }

  /** `calculateTier`: the band the score falls in. */
  function CalculateTier(score: real): (t: Tier)
  {
    if score >= 80.0 then Green
    else if score >= 50.0 then Yellow
    else Red
  }

  /** The closed score range a tier stands for, for scores on the 0..100 scale. */
  function TierRange(t: Tier): (r: (int, int))
    ensures 0 <= r.0 <= r.1 <= 100
  {
    match t
    case Green => (80, 100)
    case Yellow => (50, 79)
    case Red => (0, 49)
  }

  /**
   * Every whole score from 0 to 100 lands in exactly one tier, the one whose
   * range holds it.
   */
  lemma TierPartition(score: int)
    requires 0 <= score <= 100
    ensures forall t: Tier :: (CalculateTier(score as real) == t <==> TierRange(t).0 <= score <= TierRange(t).1)
  {
  }

  /** The star rating before rounding, times ten. */
  function RatingTimesTen(score: real): real
  {
    if score >= 80.0 then 40.0 + (score - 80.0) / 2.0
    else if score >= 50.0 then 20.0 + (score - 50.0) * 19.0 / 30.0
    else score * 3.0 / 10.0
  }

  /**
   * `calculateStarRating`, in tenths of a star: the rating is
   * `StarRatingTenths(score) / 10`, so it has at most one decimal place.
   */
  function StarRatingTenths(score: real): (tenths: int)
    ensures RatingTimesTen(score) - 1.0 / 2.0 < tenths as real <= RatingTimesTen(score) + 1.0 / 2.0
  {
    Round(RatingTimesTen(score))
  }

  /** The anchor points the tests pin down: 100, 80, 50 and 0 map to 5.0, 4.0, 2.0 and 0.0. */
  lemma StarRatingAnchors()
    ensures StarRatingTenths(100.0) == 50
    ensures StarRatingTenths(80.0) == 40
    ensures StarRatingTenths(50.0) == 20
    ensures StarRatingTenths(0.0) == 0
  {
  }

  /**
   * On the 0..100 scale, green scores rate 4.0 to 5.0, yellow scores 2.0 to
   * 3.9 and red scores 0.0 to 1.5.
   */
  lemma StarRatingBands(score: real)
    requires 0.0 <= score <= 100.0
    ensures CalculateTier(score) == Green ==> 40 <= StarRatingTenths(score) <= 50
    ensures CalculateTier(score) == Yellow ==> 20 <= StarRatingTenths(score) <= 39
    ensures CalculateTier(score) == Red ==> 0 <= StarRatingTenths(score) <= 15
  {
  }

  /** A higher score never earns fewer stars. */
  lemma StarRatingMonotone(a: real, b: real)
    requires a <= b
    ensures StarRatingTenths(a) <= StarRatingTenths(b)
  {
    assert RatingTimesTen(a) <= RatingTimesTen(b);
    RoundMonotone(RatingTimesTen(a), RatingTimesTen(b));
  }

  /**
   * The rating alone tells the tier, for any score: 4.0 stars or more is
   * green, 2.0 to 3.9 is yellow, less is red.
   */
  lemma StarRatingDeterminesTier(score: real)
    ensures CalculateTier(score) == Green <==> StarRatingTenths(score) >= 40
    ensures CalculateTier(score) == Yellow <==> 20 <= StarRatingTenths(score) < 40
    ensures CalculateTier(score) == Red <==> StarRatingTenths(score) < 20
  {
  }

  /** `adjustScoreForVehicle`. */
  function AdjustScoreForVehicle(score: real, vehicleStatus: string, vehicleRequired: bool): (adjusted: real)
    ensures !vehicleRequired ==> adjusted == score
    ensures vehicleRequired ==> 0.0 <= adjusted <= 100.0
  {
    if !vehicleRequired then score
    else
      var delta := if vehicleStatus == "has_vehicle" then 5.0
                   else if vehicleStatus == "no_vehicle" then -10.0
                   else 0.0;
      Clamp(score + delta, 0.0, 100.0)
  }

  /**
   * When a vehicle is required: having one adds 5, lacking one takes 10, any
   * other status changes nothing, each as long as the result stays in
   * 0..100; past either end the result sticks at that end.
   */
  lemma VehicleAdjustment(score: real, vehicleStatus: string)
    requires 0.0 <= score <= 100.0
    ensures vehicleStatus == "has_vehicle" ==>
              AdjustScoreForVehicle(score, vehicleStatus, true) == if score + 5.0 > 100.0 then 100.0 else score + 5.0
    ensures vehicleStatus == "no_vehicle" ==>
              AdjustScoreForVehicle(score, vehicleStatus, true) == if score < 10.0 then 0.0 else score - 10.0
    ensures vehicleStatus != "has_vehicle" && vehicleStatus != "no_vehicle" ==>
              AdjustScoreForVehicle(score, vehicleStatus, true) == score
  {
  }

  /** The vehicle adjustment is monotone in the score. */
  lemma AdjustMonotone(a: real, b: real, vehicleStatus: string, vehicleRequired: bool)
    requires a <= b
    ensures AdjustScoreForVehicle(a, vehicleStatus, vehicleRequired) <= AdjustScoreForVehicle(b, vehicleStatus, vehicleRequired)
  {
  }

  /** The concrete expectations of the scoring tests. */
  lemma ScoringExamples()
    ensures CalculateTier(80.0) == Green && CalculateTier(79.0) == Yellow && CalculateTier(49.0) == Red
    ensures AdjustScoreForVehicle(70.0, "has_vehicle", false) == 70.0
    ensures AdjustScoreForVehicle(70.0, "has_vehicle", true) == 75.0
    ensures AdjustScoreForVehicle(70.0, "no_vehicle", true) == 60.0
    ensures AdjustScoreForVehicle(70.0, "unknown", true) == 70.0
    ensures AdjustScoreForVehicle(98.0, "has_vehicle", true) == 100.0
    ensures AdjustScoreForVehicle(5.0, "no_vehicle", true) == 0.0
  {
  }
}
