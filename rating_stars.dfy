/**
 * The five-star rating widget: which stars are drawn filled for a rating, and the rating a
 * click on a star reports. It has no state of its own.
 */
module RatingStars {
  import opened Wrappers

  const StarCount: nat := 5

  /** Star `index` (from 0) is drawn filled when it lies below the rating. */
  predicate IsFilled(index: int, rating: int)
  {
    index < rating
  }

  /** The first n stars of the row, each filled or not. */
  function Row(n: nat, rating: int): (stars: seq<bool>)
    ensures |stars| == n
    ensures forall i :: 0 <= i < n ==> (stars[i] <==> IsFilled(i, rating))
  {
    if n == 0 then [] else Row(n - 1, rating) + [IsFilled(n - 1, rating)]
  }

  /** The rendered row of five stars. */
  function Stars(rating: int): (stars: seq<bool>)
    ensures |stars| == StarCount
  {
    Row(StarCount, rating)
  }

  function CountFilled(stars: seq<bool>): nat
  {
    if |stars| == 0 then 0
    else CountFilled(stars[..|stars| - 1]) + (if stars[|stars| - 1] then 1 else 0)
  }

  /**
   * A click on star `index`: nothing is reported when the widget is read-only or has no
   * callback; otherwise the rating `index + 1`.
   */
  function HandleClick(index: int, readOnly: bool, hasCallback: bool): (reported: Option<int>)
    ensures reported.Some? <==> !readOnly && hasCallback
    ensures reported.Some? ==> reported.value - 1 == index
    ensures reported.Some? && 0 <= index < StarCount ==> 1 <= reported.value <= StarCount
  {
    if readOnly || !hasCallback then None else Some(index + 1)
  }

  // =======================================================================================
  // Lemmas

  /** A rating of r fills exactly r of the five stars, clamped to 0..5. */
  lemma FilledCount(rating: int)
    ensures CountFilled(Stars(rating)) ==
            if rating <= 0 then 0 else if rating >= StarCount then StarCount else rating
  {
    RowCount(StarCount, rating);
  }

  lemma {:induction false} RowCount(n: nat, rating: int)
    ensures CountFilled(Row(n, rating)) == if rating <= 0 then 0 else if rating >= n then n else rating
  {
    if n > 0 {
      var r := Row(n, rating);
      assert r[..n - 1] == Row(n - 1, rating);
      assert r[n - 1] == IsFilled(n - 1, rating);
      RowCount(n - 1, rating);
      assert CountFilled(r) == CountFilled(Row(n - 1, rating)) + (if n - 1 < rating then 1 else 0);
    }
  }

  /** Clicking star i of an editable widget fills stars 0..i and no others. */
  lemma ClickFillsThrough(index: int)
    requires 0 <= index < StarCount
    ensures HandleClick(index, false, true) == Some(index + 1)
    ensures var stars := Stars(index + 1); forall j :: 0 <= j < |stars| ==> (stars[j] <==> j <= index)
  {
  }
}
