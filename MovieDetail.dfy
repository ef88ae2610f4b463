/** The movie detail page: the runtime label and the page's own state, the expanded reviews and
    the "show all cast" switch. The trailer, cast, director and review selectors it shares with
    the series page are in `MediaDetail`. */
module MovieDetail {

  import opened Common
  import opened Text
  import opened MediaDetail

  /** `Math.floor(minutes / 60)` and `minutes % 60` (a remainder with the sign of `minutes`). */
  function RuntimeParts(minutes: int): (r: (int, int))
    ensures r.0 * 60 <= minutes < r.0 * 60 + 60
    ensures r.1 == JsRem(minutes, 60)
    ensures minutes >= 0 ==> r.0 * 60 + r.1 == minutes && 0 <= r.0 && 0 <= r.1 < 60
    ensures minutes < 0 ==> r.0 < 0 && -60 < r.1 <= 0
  {
    (minutes / 60, JsRem(minutes, 60))
  }

  /** `formatRuntime`: "Unknown" exactly for a missing or zero runtime, otherwise
      "{hours}h {minutes}min". */
  function FormatRuntime(minutes: Option<int>): (r: string)
    ensures r == "Unknown" <==> minutes.None? || minutes.value == 0
    ensures minutes.Some? && minutes.value > 0 ==>
              exists h: nat, m: nat :: h * 60 + m == minutes.value && m < 60
                                      && r == NatToString(h) + "h " + NatToString(m) + "min"
  {
    if minutes.None? || minutes.value == 0 then "Unknown"
    else
      var parts := RuntimeParts(minutes.value);
      var r := IntToString(parts.0) + "h " + IntToString(parts.1) + "min";
      assert r[0] != 'U' by { NumeralStart(parts.0); }
      r
  }

  /** A rendered integer starts with a digit or a minus sign. */
  lemma NumeralStart(i: int)
    ensures IntToString(i) != [] && (IntToString(i)[0] == '-' || IsDigit(IntToString(i)[0]))
  {
  }

  class MovieDetailPage {
    var expandedReviews: map<string, bool>
    var showAllCast: bool

    constructor ()
      ensures expandedReviews == map[] && !showAllCast
    {
      expandedReviews := map[];
      showAllCast := false;
    }

    /** `toggleReviewExpansion`. */
    method ToggleReviewExpansion(reviewId: string)
      modifies this
      ensures expandedReviews == ToggledExpansion(old(expandedReviews), reviewId)
      ensures showAllCast == old(showAllCast)
    {
      expandedReviews := expandedReviews[reviewId := !IsExpanded(expandedReviews, reviewId)];
    }

    /** The "show all cast" button. */
    method ToggleShowAllCast()
      modifies this
      ensures showAllCast == !old(showAllCast) && expandedReviews == old(expandedReviews)
    {
      showAllCast := !showAllCast;
    }
  }
}
