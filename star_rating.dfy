/** The star rating widget: a row of stars, the first ones filled up to
    the hovered star or else up to the rating; interactive only when a
    rating setter is given. */
module StarRating {

  function Min(a: int, b: int): int {
    if a <= b then a else b
  }

  function Max(a: int, b: int): int {
    if a <= b then b else a
  }

  const DefaultTotalStars := 5

  /** `hoverRating || rating`: a zero hover falls back to the rating. */
  function Effective(hoverRating: int, rating: int): (e: int)
    ensures hoverRating != 0 ==> e == hoverRating
    ensures hoverRating == 0 ==> e == rating
  {
    if hoverRating != 0 then hoverRating else rating
  }

  /** Whether star `k` (counted from 1) is drawn filled. */
  predicate Filled(k: int, hoverRating: int, rating: int) {
    k <= Effective(hoverRating, rating)
  }

  /** The number of filled stars among stars 1 to `totalStars`. */
  function FilledCount(totalStars: nat, hoverRating: int, rating: int): (n: nat)
    ensures n == Min(totalStars, Max(0, Effective(hoverRating, rating)))
  {
    if totalStars == 0 then 0
    else FilledCount(totalStars - 1, hoverRating, rating) + (if Filled(totalStars, hoverRating, rating) then 1 else 0)
  }

  /** The filled stars are a prefix of the row. */
  lemma FilledArePrefix(j: int, k: int, hoverRating: int, rating: int)
    requires 1 <= j <= k && Filled(k, hoverRating, rating)
    ensures Filled(j, hoverRating, rating)
  {
  }

  /** One rendered star row and its hover state. */
  class Rating {
    const rating: int
    const totalStars: nat
    /** Whether a rating setter was given; without one the buttons are
      disabled and both handlers do nothing. */
    const interactive: bool
    var hoverRating: int
    /** The values handed to the rating setter, in order. */
    var requested: seq<int>

    constructor (rating: int, totalStars: nat, interactive: bool)
      ensures this.rating == rating && this.totalStars == totalStars && this.interactive == interactive
      ensures hoverRating == 0 && requested == [] && Valid()
    {
      this.rating := rating;
      this.totalStars := totalStars;
      this.interactive := interactive;
      hoverRating := 0;
      requested := [];
    }

    /** The hover is 0 or a star of the row, and stays 0 when the widget is
      not interactive. */
    predicate Valid()
      reads this
    {
      0 <= hoverRating <= totalStars && (!interactive ==> hoverRating == 0)
    }

    function FilledStars(): (n: nat)
      reads this
      ensures n == Min(totalStars, Max(0, Effective(hoverRating, rating)))
    {
      FilledCount(totalStars, hoverRating, rating)
    }

    /** Entering star `k` previews it. */
    method MouseEnter(k: int)
      requires Valid() && 1 <= k <= totalStars
      modifies this
      ensures Valid() && requested == old(requested)
      ensures hoverRating == (if interactive then k else old(hoverRating))
    {
      if interactive {
        hoverRating := k;
      }
    }

    /** Leaving a star ends the preview. */
    method MouseLeave()
      requires Valid()
      modifies this
      ensures Valid() && requested == old(requested) && hoverRating == 0
    {
      if interactive {
        hoverRating := 0;
      }
    }

    /** Clicking star `k` hands `k` to the rating setter. */
    method Click(k: int)
      requires Valid() && 1 <= k <= totalStars
      modifies this
      ensures Valid() && hoverRating == old(hoverRating)
      ensures requested == old(requested) + (if interactive then [k] else [])
    {
      if interactive {
        requested := requested + [k];
      }
    }
  }

  /** While hovering star `k`, exactly `k` stars are filled, whatever the
      rating. */
  lemma HoverFillsUpTo(totalStars: nat, k: int, rating: int)
    requires 1 <= k <= totalStars
    ensures FilledCount(totalStars, k, rating) == k
  {
  }
}
