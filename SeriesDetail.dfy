/** The series detail page: the season list built one season request at a time, the count labels,
    and the page's own state, the expanded reviews and seasons and the "show all cast" switch.
    The trailer, cast, director and review selectors are those of `MediaDetail`. */
module SeriesDetail {

  import opened Common
  import opened MediaDetail

  datatype Episode = Episode(episodeNumber: nat, name: string)

  /** One entry of the season list: its number and the episodes its request returned (the
      response may carry none). */
  datatype Season = Season(season: nat, episodes: Option<seq<Episode>>)

  /** The season loop of the page's fetch: seasons 1 to `totalSeasons` requested in ascending
      order, each entry numbered after its position and holding its response's episodes; the
      first failed request abandons the list (the page then stores no seasons). */
  method CollectSeasons(totalSeasons: nat, fetchSeason: nat -> Response<Episode>)
    returns (allSeasons: Option<seq<Season>>)
    ensures allSeasons.Some? <==> forall s :: 1 <= s <= totalSeasons ==> fetchSeason(s).Loaded?
    ensures allSeasons.Some? ==> |allSeasons.value| == totalSeasons
    ensures allSeasons.Some? ==> forall i :: 0 <= i < totalSeasons ==>
              allSeasons.value[i] == Season(i + 1, fetchSeason(i + 1).results)
    ensures allSeasons.Some? ==> forall i, j :: 0 <= i < j < |allSeasons.value| ==>
              allSeasons.value[i].season < allSeasons.value[j].season
  {
    var seasons: seq<Season> := [];
    var season := 1;
    while season <= totalSeasons
      invariant 1 <= season <= totalSeasons + 1
      invariant |seasons| == season - 1
      invariant forall s :: 1 <= s < season ==> fetchSeason(s).Loaded?
      invariant forall i :: 0 <= i < season - 1 ==> seasons[i] == Season(i + 1, fetchSeason(i + 1).results)
    {
      var seasonData := fetchSeason(season);
      if seasonData.Failed? {
        return None;
      }
      seasons := seasons + [Season(season, seasonData.results)];
      season := season + 1;
    }
    allSeasons := Some(seasons);
  }

  /** "Season"/"Episode" with an "s" exactly when the count is above one. */
  function CountNoun(count: int, noun: string): (r: string)
    ensures |r| >= |noun| && r[..|noun|] == noun
    ensures |r| == |noun| + 1 <==> count > 1
    ensures |r| == |noun| + 1 ==> r[|noun|] == 's'
    ensures |r| <= |noun| + 1
    ensures count <= 1 ==> r == noun
  {
    if count > 1 then noun + "s" else noun
  }

  class SeriesDetailPage {
    var expandedReviews: map<string, bool>
    var expandedSeasons: map<nat, bool>
    var showAllCast: bool

    constructor ()
      ensures expandedReviews == map[] && expandedSeasons == map[] && !showAllCast
    {
      expandedReviews := map[];
      expandedSeasons := map[];
      showAllCast := false;
    }

    /** `toggleReviewExpansion`. */
    method ToggleReviewExpansion(reviewId: string)
      modifies this
      ensures expandedReviews == ToggledExpansion(old(expandedReviews), reviewId)
      ensures expandedSeasons == old(expandedSeasons) && showAllCast == old(showAllCast)
    {
      expandedReviews := expandedReviews[reviewId := !IsExpanded(expandedReviews, reviewId)];
    }

    /** `handleToggleAccordian`. */
    method ToggleAccordion(seasonNumber: nat)
      modifies this
      ensures expandedSeasons == ToggledExpansion(old(expandedSeasons), seasonNumber)
      ensures expandedReviews == old(expandedReviews) && showAllCast == old(showAllCast)
    {
      expandedSeasons := expandedSeasons[seasonNumber := !IsExpanded(expandedSeasons, seasonNumber)];
    }

    /** The "show all cast" button. */
    method ToggleShowAllCast()
      modifies this
      ensures showAllCast == !old(showAllCast)
      ensures expandedReviews == old(expandedReviews) && expandedSeasons == old(expandedSeasons)
    {
      showAllCast := !showAllCast;
    }
  }
}
