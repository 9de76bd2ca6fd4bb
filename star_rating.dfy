/**
 `renderStars(rating)`: five star icons, the first ones filled. Both
 review components carry an identical copy of this function.
 */
module StarRating {

  const StarCount := 5

  /** Star `i` is filled exactly when `i < rating`. */
  function RenderStars(rating: int): (stars: seq<bool>)
    ensures |stars| == StarCount
    ensures forall i :: 0 <= i < StarCount ==> (stars[i] <==> i < rating)
  {
    seq(StarCount, i => i < rating)
  }

  /** The number of filled stars in a row. */
  function FilledCount(stars: seq<bool>): nat {
    if stars == [] then 0
    else FilledCount(stars[..|stars| - 1]) + (if stars[|stars| - 1] then 1 else 0)
  }

  /** `rating` clamped to 0..n */
  function Clamp(rating: int, n: nat): nat {
    if rating < 0 then 0 else if rating > n then n else rating
  }

  /** The filled stars are a prefix of the row. */
  lemma FilledStarsArePrefix(rating: int, i: int, j: int)
    requires 0 <= i <= j < StarCount
    ensures RenderStars(rating)[j] ==> RenderStars(rating)[i]
  {
  }

  lemma {:induction false} FilledCountOfPrefix(stars: seq<bool>, rating: int)
    requires forall i :: 0 <= i < |stars| ==> (stars[i] <==> i < rating)
    ensures FilledCount(stars) == Clamp(rating, |stars|)
  {
    if stars != [] {
      FilledCountOfPrefix(stars[..|stars| - 1], rating);
    }
  }

  /** The star row shows the rating clamped to 0..5: a rating above five
      fills all five, a rating below one fills none. */
  lemma FilledCountIsClampedRating(rating: int)
    ensures FilledCount(RenderStars(rating)) == Clamp(rating, StarCount)
  {
    FilledCountOfPrefix(RenderStars(rating), rating);
  }
}
