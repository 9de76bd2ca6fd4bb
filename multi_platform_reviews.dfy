/**
 The multi-platform reviews component: a constant list of manually
 collected reviews, each rendered as a card with a platform badge, a star
 row and, when the review has one, a link to the original. The list is
 the component's initial state and nothing ever replaces it.
 */
module MultiPlatformReviews {
  import opened Wrappers
  import opened Js
  import StarRating

  datatype Review = Review(
    id: string,
    authorName: string,
    authorPhoto: Option<string>,
    rating: int,
    text: string,
    timeDescription: string,
    platform: string,
    sourceUrl: Option<string>)

  const GoogleMapsUrl := "https://maps.app.goo.gl/jYcgij5FyLvLSeFA6"
  const FacebookPageUrl := "https://www.facebook.com/profile.php?id=100090352021248"
  const PhotoPlaceholder := "/placeholder.svg?height=40&width=40"

  // The long texts are written in short pieces so that the verifier does
  // not have to unfold each whole literal.
  /** `manuallyCollectedReviews`, the initial and only value of `reviews`. */
  const ManuallyCollectedReviews: seq<Review> := [
    Review(
      "google-1",
      "Sarah Johnson",
      None,
      5,
      "Outstanding service from River and " +
        "his team! They installed our new " +
        "Fujitsu system efficiently and " +
        "professionally. The quote was " +
        "competitive and the work was " +
        "completed on time. Highly recommend " +
        "RSM Air Conditioning for anyone in " +
        "the Yarra Valley.",
      "2 weeks ago",
      "google",
      Some(GoogleMapsUrl)),
    Review(
      "facebook-1",
      "Charli Tyler",
      Some("/images/reviews/charli-tyler.jpg"),
      5,
      "River was incredibly professional and " +
        "easy to deal with, and was able to " +
        "help us work out exactly what we " +
        "needed to best suit our space. He was " +
        "lovely and very easy to converse with " +
        "while organising the installation. " +
        "Highly recommend \U{F0}\U{178}\U{2DC}\U{160}",
      "1 month ago",
      "facebook",
      Some(FacebookPageUrl)),
    Review(
      "google-2",
      "Michael Chen",
      None,
      5,
      "River was fantastic to deal with from " +
        "start to finish. He provided expert " +
        "advice on the best system for our " +
        "home and the installation was " +
        "seamless. Great communication " +
        "throughout the process.",
      "1 month ago",
      "google",
      Some(GoogleMapsUrl))
  ]

  /** The badge `getPlatformBadge` returns: its text and its classes. */
  datatype Badge = Badge(caption: string, className: string)

  /** "google" and "facebook" get their own badge; every other platform,
      "manual" included, gets the generic "Review" badge. */
  function PlatformBadge(platform: string): (b: Badge)
    ensures b.caption == "Google" <==> platform == "google"
    ensures b.caption == "Facebook" <==> platform == "facebook"
    ensures b.caption == "Review" <==> platform != "google" && platform != "facebook"
  {
    match platform
    case "google" => Badge("Google", "bg-blue-600 text-white text-xs px-2 py-1 rounded-full")
    case "facebook" => Badge("Facebook", "bg-blue-500 text-white text-xs px-2 py-1 rounded-full")
    case _ => Badge("Review", "bg-gray-600 text-white text-xs px-2 py-1 rounded-full")
  }

  /** What one review card shows. */
  datatype Card = Card(badge: Badge, photo: string, stars: seq<bool>, showsSourceLink: bool)

  /** The "View Original" link appears exactly when `source_url` is a
      non-empty string; the photo falls back to a placeholder. */
  function RenderCard(review: Review): (card: Card)
    ensures card.badge == PlatformBadge(review.platform)
    ensures card.stars == StarRating.RenderStars(review.rating)
    ensures card.showsSourceLink <==> Present(review.sourceUrl)
    ensures Present(review.authorPhoto) ==> card.photo == review.authorPhoto.value
    ensures !Present(review.authorPhoto) ==> card.photo == PhotoPlaceholder
  {
    Card(
      PlatformBadge(review.platform),
      if Present(review.authorPhoto) then review.authorPhoto.value else PhotoPlaceholder,
      StarRating.RenderStars(review.rating),
      Present(review.sourceUrl))
  }

  /** `reviews.map(...)`: one card per review, in list order. */
  function RenderCards(reviews: seq<Review>): (cards: seq<Card>)
    ensures |cards| == |reviews|
    ensures forall i :: 0 <= i < |reviews| ==> cards[i] == RenderCard(reviews[i])
  {
    seq(|reviews|, i requires 0 <= i < |reviews| => RenderCard(reviews[i]))
  }

  /** What the component displays, on every render: `setReviews` is never
      called, so `reviews` is always its initial value. */
  function Displayed(): (cards: seq<Card>)
    ensures |cards| == |ManuallyCollectedReviews| == 3
    ensures forall i :: 0 <= i < |cards| ==> cards[i] == RenderCard(ManuallyCollectedReviews[i])
  {
    RenderCards(ManuallyCollectedReviews)
  }

  /** The constant list has distinct ids: "google-1", "facebook-1",
      "google-2". */
  lemma ManuallyCollectedIdsDistinct()
    ensures forall i, j :: 0 <= i < j < |ManuallyCollectedReviews| ==>
      ManuallyCollectedReviews[i].id != ManuallyCollectedReviews[j].id
  {
    var rs := ManuallyCollectedReviews;
    assert |rs| == 3;
    assert rs[0].id[0] == 'g' && rs[1].id[0] == 'f' && rs[2].id[0] == 'g';
    assert rs[0].id[7] == '1' && rs[2].id[7] == '2';
  }

  /** Every record of the constant list is rated within 1..5, comes from
      Google or Facebook, and links to its original. */
  lemma ManuallyCollectedReviewsWellFormed()
    ensures forall r :: r in ManuallyCollectedReviews ==>
      1 <= r.rating <= 5 && r.platform in {"google", "facebook"} && Present(r.sourceUrl)
  {
    var rs := ManuallyCollectedReviews;
    assert |rs| == 3;
  }

  /** Every displayed card carries a named platform badge (never the
      generic one), five filled stars and a "View Original" link. */
  lemma DisplayedCardsAreLabelled()
    ensures |Displayed()| == |ManuallyCollectedReviews|
    ensures forall i :: 0 <= i < |Displayed()| ==>
      Displayed()[i].badge.caption in {"Google", "Facebook"} && Displayed()[i].showsSourceLink &&
      StarRating.FilledCount(Displayed()[i].stars) == StarRating.StarCount
  {
    var cards := Displayed();
    forall i | 0 <= i < |cards|
      ensures cards[i].badge.caption in {"Google", "Facebook"} && cards[i].showsSourceLink
      ensures StarRating.FilledCount(cards[i].stars) == StarRating.StarCount
    {
      var r := ManuallyCollectedReviews[i];
      assert r.rating == 5 && r.platform in {"google", "facebook"} && Present(r.sourceUrl);
      StarRating.FilledCountIsClampedRating(r.rating);
    }
  }
}
