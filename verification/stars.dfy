/**
 * The five-star rating widget shared by the review form and the edit-review
 * dialog: a star is lit up to the hovered star while the pointer is over one,
 * up to the chosen rating otherwise.
 */
module Stars {
  const StarCount := 5

  /** `hoveredRating || rating`: a hovered value of 0 means "no star hovered". */
  function Shown(hovered: int, rating: int): (v: int)
    ensures hovered != 0 ==> v == hovered
    ensures hovered == 0 ==> v == rating
  {
    if hovered != 0 then hovered else rating
  }

  /** Which of the five stars are lit; the lit ones always form a prefix. */
  function LitStars(hovered: int, rating: int): (lit: seq<bool>)
    ensures |lit| == StarCount
    ensures forall i, j :: 0 <= i < j < StarCount && lit[j] ==> lit[i]
    ensures 1 <= Shown(hovered, rating) <= StarCount ==> lit[Shown(hovered, rating) - 1]
    ensures forall i :: 0 <= i < StarCount && Shown(hovered, rating) <= i ==> !lit[i]
  {
    seq(StarCount, i => i + 1 <= Shown(hovered, rating))
  }
}
