/** The star row (components/RatingStars.tsx): which stars are full or half full for a real rating,
    what a tap reports, and the word shown next to the stars. */
module RatingStars {
  import opened Types

  /** `Math.ceil`. */
  function Ceil(r: real): (c: int)
    ensures r <= c as real < r + 1.0
  {
    -((-r).Floor)
  }

  /** `rating % 1 === 0`. */
  predicate IsWhole(r: real) {
    r == r.Floor as real
  }

  /** A non-whole rating lies strictly between its floor and the next integer, which is its ceiling. */
  lemma CeilOfFraction(r: real)
    ensures IsWhole(r) ==> Ceil(r) == r.Floor
    ensures !IsWhole(r) ==> Ceil(r) == r.Floor + 1
  {
    if !IsWhole(r) {
      assert r.Floor as real < r;
    }
  }

  datatype Star = Star(filled: bool, half: bool)

  /** The star at position `index`: full below the floor; half when the rating has a fraction and
      the index is below its ceiling but not full. */
  function StarAt(rating: real, index: nat): Star {
    var filled := index < rating.Floor;
    Star(filled, !filled && index < Ceil(rating) && !IsWhole(rating))
  }

  /** The number of stars rendered: `maxRating`, 5 when it is not given. */
  function StarCount(maxRating: Option<nat>): nat {
    maxRating.GetOr(5)
  }

  /** The rendered row. */
  function Stars(rating: real, maxRating: Option<nat>): (r: seq<Star>)
    ensures |r| == StarCount(maxRating)
    ensures maxRating.None? ==> |r| == 5
    ensures forall i :: 0 <= i < |r| ==> r[i] == StarAt(rating, i)
  {
    seq(StarCount(maxRating), i requires 0 <= i => StarAt(rating, i))
  }

  /** Full stars come first; only the star at the floor can be half full, and none is when the
      rating is whole; a star is lit (full or half) exactly when its index is below the ceiling. */
  lemma StarShape(rating: real, i: nat, j: nat)
    ensures i <= j && StarAt(rating, j).filled ==> StarAt(rating, i).filled
    ensures StarAt(rating, i).half ==> i == rating.Floor && !IsWhole(rating)
    ensures StarAt(rating, i).half && StarAt(rating, j).half ==> i == j
    ensures !(StarAt(rating, i).filled && StarAt(rating, i).half)
    ensures StarAt(rating, i).filled || StarAt(rating, i).half <==> i < Ceil(rating)
  {
    CeilOfFraction(rating);
  }

  /** handlePress(index + 1): a tap reports the tapped star's one-based number, and only when the row
      is editable and someone listens. */
  function PressStar(editable: bool, hasCallback: bool, count: nat, index: nat): (r: Option<nat>)
    requires index < count
    ensures r.Some? <==> editable && hasCallback
    ensures r.Some? ==> 1 <= r.value <= count && r.value == index + 1
  {
    if editable && hasCallback then Some(index + 1) else None
  }

  /** getRatingLabel. */
  function RatingLabel(rating: real): string {
    if rating >= 4.5 then "Excellent"
    else if rating >= 3.5 then "Very Good"
    else if rating >= 2.5 then "Good"
    else if rating >= 1.5 then "Fair"
    else "Poor"
  }

  /** The labels in increasing order of praise. */
  function LabelRank(word: string): nat {
    match word
    case "Excellent" => 4
    case "Very Good" => 3
    case "Good" => 2
    case "Fair" => 1
    case _ => 0
  }

  /** How many of the thresholds 1.5, 2.5, 3.5 and 4.5 the rating reaches. */
  function ThresholdsReached(rating: real): nat {
    (if rating >= 1.5 then 1 else 0) + (if rating >= 2.5 then 1 else 0)
    + (if rating >= 3.5 then 1 else 0) + (if rating >= 4.5 then 1 else 0)
  }

  /** The label's rank is the number of thresholds reached, so a higher rating never reads worse. */
  lemma LabelIsMonotone(r1: real, r2: real)
    ensures LabelRank(RatingLabel(r1)) == ThresholdsReached(r1)
    ensures r1 <= r2 ==> LabelRank(RatingLabel(r1)) <= LabelRank(RatingLabel(r2))
  {
  }

  /** Tapping star `i` of the default row rates `i + 1`; redrawn, exactly the first `i + 1` stars are
      full, none is half, and the label has rank `i` ("Poor" for one star up to "Excellent" for five). */
  lemma TappedStarRedraw(i: nat, j: nat)
    requires i < 5
    ensures var r := PressStar(true, true, 5, i).value as real;
            LabelRank(RatingLabel(r)) == i
            && (j < 5 ==> Stars(r, None)[j] == Star(j <= i, false))
  {
    var r := PressStar(true, true, 5, i).value as real;
    assert r.Floor == i + 1;
    assert IsWhole(r);
  }
}
