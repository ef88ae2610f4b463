/** The selectors the movie and series detail pages apply to a fetched title: the trailer, the
    cast shown, the directors, the top reviews, and the per-key expansion state of reviews and
    seasons. The two pages run the same code. */
module MediaDetail {

  import opened Common

  datatype Video = Video(key: string, kind: string, official: bool)
  datatype CastMember = CastMember(id: nat, name: string, character: string)
  datatype CrewMember = CrewMember(id: nat, name: string, job: string)
  datatype Review = Review(id: Option<string>, author: string, content: string)

  predicate IsTrailer(v: Video)
  {
    v.kind == "Trailer"
  }

  predicate IsOfficialTrailer(v: Video)
  {
    v.kind == "Trailer" && v.official
  }

  /** `findTrailer`: the first official trailer, else the first trailer, else nothing; nothing
      either when the title has no video list. */
  function FindTrailer(videos: Option<seq<Video>>): (r: Option<Video>)
    ensures videos.None? ==> r.None?
    ensures r.Some? ==> r.value in videos.value && IsTrailer(r.value)
    ensures videos.Some? && (exists v :: v in videos.value && IsOfficialTrailer(v)) ==> r.Some? && r.value.official
    ensures videos.Some? ==> (r.None? <==> forall v :: v in videos.value ==> !IsTrailer(v))
  {
    if videos.None? then None
    else
      match Find(videos.value, IsOfficialTrailer)
      case Some(v) => Some(v)
      case None => Find(videos.value, IsTrailer)
  }

  /** The trailer chosen is the official trailer that comes first in the list. */
  lemma FindTrailerTakesFirstOfficial(vs: seq<Video>, k: nat)
    requires k < |vs| && IsOfficialTrailer(vs[k])
    requires forall j :: 0 <= j < k ==> !IsOfficialTrailer(vs[j])
    ensures FindTrailer(Some(vs)) == Some(vs[k])
  {
  }

  /** Without an official trailer, the trailer chosen is the first trailer of the list. */
  lemma FindTrailerFallsBackToFirst(vs: seq<Video>, k: nat)
    requires forall v :: v in vs ==> !IsOfficialTrailer(v)
    requires k < |vs| && IsTrailer(vs[k])
    requires forall j :: 0 <= j < k ==> !IsTrailer(vs[j])
    ensures FindTrailer(Some(vs)) == Some(vs[k])
  {
  }

  /** `getCast`: the whole cast when "show all" is on, otherwise its first ten members; nothing
      when the title has no cast list. */
  function GetCast(cast: Option<seq<CastMember>>, showAllCast: bool): (r: seq<CastMember>)
    ensures cast.None? ==> r == []
    ensures cast.Some? && showAllCast ==> r == cast.value
    ensures cast.Some? && !showAllCast ==> r <= cast.value && |r| == if |cast.value| < 10 then |cast.value| else 10
  {
    if cast.None? then [] else if showAllCast then cast.value else Take(cast.value, 10)
  }

  predicate IsDirector(c: CrewMember)
  {
    c.job == "Director"
  }

  /** `getDirectors`: exactly the crew members whose job is "Director". */
  function GetDirectors(crew: Option<seq<CrewMember>>): (r: seq<CrewMember>)
    ensures crew.None? ==> r == []
    ensures forall c :: c in r <==> crew.Some? && c in crew.value && c.job == "Director"
    ensures crew.Some? ==> |r| <= |crew.value|
  {
    if crew.None? then [] else Filter(crew.value, IsDirector)
  }

  /** The directors keep the crew's order: the directors of a crew list are those of its first
      part followed by those of the rest. */
  lemma DirectorsKeepOrder(a: seq<CrewMember>, b: seq<CrewMember>)
    ensures GetDirectors(Some(a + b)) == GetDirectors(Some(a)) + GetDirectors(Some(b))
  {
    FilterAppend(a, b, IsDirector);
  }

  /** `getTopReviews`: the first three reviews; nothing when the title has no review list. */
  function GetTopReviews(reviews: Option<seq<Review>>): (r: seq<Review>)
    ensures reviews.None? ==> r == []
    ensures reviews.Some? ==> r <= reviews.value && |r| == if |reviews.value| < 3 then |reviews.value| else 3
  {
    if reviews.None? then [] else Take(reviews.value, 3)
  }

  // ---------------------------------------------------------------------------
  // Expansion state

  /** `!!expanded[key]`: a key never toggled reads as collapsed. */
  predicate IsExpanded<K>(m: map<K, bool>, key: K)
  {
    key in m && m[key]
  }

  /** The updater of `toggleReviewExpansion` and `handleToggleAccordian`: the key's state flips,
      every other entry stays as it was. */
  function ToggledExpansion<K(!new)>(m: map<K, bool>, key: K): (r: map<K, bool>)
    ensures key in r && (IsExpanded(r, key) <==> !IsExpanded(m, key))
    ensures forall k :: k != key ==> (k in r <==> k in m) && (k in m ==> r[k] == m[k])
  {
    m[key := !IsExpanded(m, key)]
  }

  /** Toggling the same key twice shows every entry as it was shown before. */
  lemma ToggleExpansionTwice<K(!new)>(m: map<K, bool>, key: K)
    ensures forall k :: IsExpanded(ToggledExpansion(ToggledExpansion(m, key), key), k) <==> IsExpanded(m, k)
  {
  }

  /** `review.id || ""`: the key a review's expansion is stored under. */
  function ReviewKey(review: Review): string
  {
    if review.id.Some? then review.id.value else ""
  }

  /** The "Read full review" button is shown only for content over 300 characters. */
  predicate HasExpandButton(content: string)
  {
    |content| > 300
  }

  /** The text shown for a review: collapsed long content is cut to its first 300 characters
      followed by "..."; anything else is shown in full. */
  function ReviewText(content: string, expanded: bool): (r: string)
    ensures HasExpandButton(content) && !expanded ==>
              |r| == 303 && r[..300] == content[..300] && r[300..] == "..."
    ensures !HasExpandButton(content) || expanded ==> r == content
  {
    if |content| > 300 && !expanded then content[..300] + "..." else content
  }

  /** A review without the button always shows in full, whatever its stored expansion state; a
      collapsed text is never longer than 303 characters. */
  lemma ReviewTextBounds(content: string, expanded: bool)
    ensures !HasExpandButton(content) ==> ReviewText(content, expanded) == ReviewText(content, !expanded) == content
    ensures !expanded ==> |ReviewText(content, expanded)| <= 303
  {
  }
}
