/** The Open Graph image for a shared listing: the fallback card when there
    is no id or no offer, otherwise an offer card with its cover, a title
    cut to 55 characters and the seller's star rating. */
module ShareCard {
  import opened Text

  const CardWidth: int := 1200
  const CardHeight: int := 630
  const MaxTitle: int := 55
  /** What a long title keeps before the ellipsis. */
  const KeptTitle: int := 52
  const CacheControl: string := "public, max-age=3600, s-maxage=3600"
  const FullStar: char := '\U{2605}'
  const EmptyStar: char := '\U{2606}'

  /** The fields of a fetched offer the card shows. */
  datatype Offer = Offer(title: string, images: Option<seq<string>>, sellerName: string, sellerRating: real)

  datatype Card =
    | FallbackCard(brand: string, tagline: string)
    | OfferCard(cover: Option<string>, title: string, stars: Option<string>, sellerName: string)

  /** The route's answer: an image, or the error thrown while building it. */
  datatype Response =
    | Image(card: Card, width: int, height: int, cacheControl: Option<string>)
    | ThrewRangeError

  const Fallback: Card := FallbackCard("Markeet", "Campus Marketplace for UI Students")

  /** `images?.[0] || null`: the first image, unless it is missing or empty. */
  function Cover(images: Option<seq<string>>): (r: Option<string>)
    ensures r.Some? <==> images.Some? && images.value != [] && images.value[0] != ""
    ensures r.Some? ==> r.value == images.value[0]
  {
    if images.Some? && |images.value| > 0 && images.value[0] != "" then Some(images.value[0]) else None
  }

  /** A title longer than 55 characters becomes its first 52 and "...". */
  function DisplayTitle(title: string): (r: string)
    ensures |title| <= MaxTitle ==> r == title
    ensures |title| > MaxTitle ==> |r| == MaxTitle && r[..KeptTitle] == title[..KeptTitle] && r[KeptTitle..] == "..."
  {
    if |title| > MaxTitle then title[..KeptTitle] + "..." else title
  }

  /** The shown title always fits, and showing it again changes nothing. */
  lemma DisplayTitleFits(title: string)
    ensures |DisplayTitle(title)| <= MaxTitle
    ensures DisplayTitle(DisplayTitle(title)) == DisplayTitle(title)
  {
  }

  /** `Math.round`: the nearest integer, halves rounded up. */
  function Round(x: real): (r: int)
    ensures r as real <= x + 0.5 < r as real + 1.0
  {
    (x + 0.5).Floor
  }

  /** `c.repeat(n)` for n >= 0. */
  function Repeat(c: char, n: nat): (r: string)
    ensures |r| == n && forall i :: 0 <= i < n ==> r[i] == c
  {
    seq(n, _ => c)
  }

  datatype Stars = NoStars | StarText(text: string) | RangeError

  /** `ratingStars`: none unless the rating is positive; otherwise the
      rounded rating in filled stars and the rest of five in empty ones.
      A rating that rounds above 5 makes the second `repeat` count negative,
      which throws. */
  function RatingStars(rating: real): (r: Stars)
    ensures rating <= 0.0 <==> r.NoStars?
    ensures r.RangeError? <==> rating > 0.0 && Round(rating) > 5
    ensures r.StarText? ==> |r.text| == 5
  {
    if rating > 0.0 then
      var n := Round(rating);
      if n > 5 then RangeError else StarText(Repeat(FullStar, n) + Repeat(EmptyStar, 5 - n))
    else NoStars
  }

  /** A rating that rounds to n shows exactly n filled stars, first. */
  lemma StarsCount(rating: real)
    requires rating > 0.0 && Round(rating) <= 5
    ensures var t := RatingStars(rating).text;
      && (forall i :: 0 <= i < Round(rating) ==> t[i] == FullStar)
      && (forall i :: Round(rating) <= i < 5 ==> t[i] == EmptyStar)
  {
  }

  /** Concrete cases: 4.5 rounds up to five filled stars, 0.2 rounds down to five empty ones, and 5.6 throws. */
  lemma StarsExamples()
    ensures RatingStars(4.5) == StarText(Repeat(FullStar, 5))
    ensures RatingStars(0.2) == StarText(Repeat(EmptyStar, 5))
    ensures RatingStars(0.0) == NoStars
    ensures RatingStars(5.6) == RangeError
  {
    assert Round(4.5) == 5;
    assert Round(0.2) == 0;
    assert Repeat(FullStar, 5) + Repeat(EmptyStar, 0) == Repeat(FullStar, 5);
    assert Repeat(FullStar, 0) + Repeat(EmptyStar, 5) == Repeat(EmptyStar, 5);
    assert Round(5.6) == 6;
  }

  /** `GET`: `id` is the `id` query parameter (None when absent) and `offer`
      what the fetch for it returned. */
  function ShareImage(id: Option<string>, offer: Option<Offer>): (r: Response)
    ensures id.None? || id.value == "" || offer.None? ==> r == Image(Fallback, CardWidth, CardHeight, None)
    ensures r.Image? ==> r.width == CardWidth && r.height == CardHeight
    ensures r.ThrewRangeError? <==> !(id.None? || id.value == "") && offer.Some? && RatingStars(offer.value.sellerRating).RangeError?
    ensures r.Image? && r.card.OfferCard? ==> r.cacheControl == Some(CacheControl) && |r.card.title| <= MaxTitle
    ensures r.Image? && r.card.OfferCard? ==>
      offer.Some? && r.card.cover == Cover(offer.value.images) && r.card.title == DisplayTitle(offer.value.title)
      && (r.card.stars.Some? <==> offer.value.sellerRating > 0.0)
    ensures r.Image? && r.card.FallbackCard? <==> id.None? || id.value == "" || offer.None?
    ensures !(id.None? || id.value == "") && offer.Some? && !RatingStars(offer.value.sellerRating).RangeError? ==>
      var o := offer.value;
      var stars := RatingStars(o.sellerRating);
      r == Image(OfferCard(Cover(o.images), DisplayTitle(o.title), (if stars.StarText? then Some(stars.text) else None), o.sellerName),
                 CardWidth, CardHeight, Some(CacheControl))
  {
    if id.None? || id.value == "" then Image(Fallback, CardWidth, CardHeight, None)
    else if offer.None? then Image(Fallback, CardWidth, CardHeight, None)
    else
      var o := offer.value;
      DisplayTitleFits(o.title);
      match RatingStars(o.sellerRating)
      case RangeError => ThrewRangeError
      case NoStars => Image(OfferCard(Cover(o.images), DisplayTitle(o.title), None, o.sellerName), CardWidth, CardHeight, Some(CacheControl))
      case StarText(t) => Image(OfferCard(Cover(o.images), DisplayTitle(o.title), Some(t), o.sellerName), CardWidth, CardHeight, Some(CacheControl))
  }
}
