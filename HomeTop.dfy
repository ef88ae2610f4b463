/** The home page's trending carousel: an index into the trending list that steps forward and
    backward with wrap-around, on the arrow buttons and on the auto-slide tick. */
module HomeTop {

  import opened Media

  /** The updater of `goToNext` and of the auto-slide tick: nothing moves on an empty list;
      otherwise the last slide is followed by the first. */
  function NextIndex(i: nat, n: nat): (r: nat)
    ensures n == 0 ==> r == i
    ensures 0 <= i < n ==> r < n && r == (i + 1) % n
  {
    if n == 0 then i else if i == n - 1 then 0 else i + 1
  }

  /** The updater of `goToPrevious`: nothing moves on an empty list; otherwise the first slide is
      preceded by the last. */
  function PrevIndex(i: nat, n: nat): (r: nat)
    ensures n == 0 ==> r == i
    ensures 0 <= i < n ==> r < n && r == (i + n - 1) % n
  {
    if n == 0 then i else if i == 0 then n - 1 else i - 1
  }

  /** A step back undoes a step forward, and a step forward undoes a step back. */
  lemma StepsUndoEachOther(i: nat, n: nat)
    requires i < n
    ensures PrevIndex(NextIndex(i, n), n) == i
    ensures NextIndex(PrevIndex(i, n), n) == i
  {
  }

  /** The index after `k` forward steps. */
  function NextSteps(i: nat, n: nat, k: nat): nat
  {
    if k == 0 then i else NextIndex(NextSteps(i, n, k - 1), n)
  }

  /** Forward steps compose: `a` steps and then `b` more are `a + b` steps. */
  lemma {:induction false} NextStepsCompose(i: nat, n: nat, a: nat, b: nat)
    ensures NextSteps(i, n, a + b) == NextSteps(NextSteps(i, n, a), n, b)
  {
    if b > 0 {
      NextStepsCompose(i, n, a, b - 1);
    }
  }

  /** Steps that do not pass the last slide advance the index one by one. */
  lemma {:induction false} NextStepsWithoutWrap(i: nat, n: nat, k: nat)
    requires i + k < n
    ensures NextSteps(i, n, k) == i + k
  {
    if k > 0 {
      NextStepsWithoutWrap(i, n, k - 1);
    }
  }

  /** As many forward steps as there are slides bring the carousel back to where it was: the
      steps up to the last slide, the wrap to the first, and the steps back up to the start. */
  lemma FullTurn(i: nat, n: nat)
    requires i < n
    ensures NextSteps(i, n, n) == i
  {
    NextStepsWithoutWrap(i, n, n - i - 1);
    assert NextSteps(i, n, n - i) == 0;
    NextStepsCompose(i, n, n - i, i);
    if i > 0 {
      NextStepsWithoutWrap(0, n, i);
    }
  }

  /** `handleOnClickNavigation`: a movie opens its movie page by title; every other record, a
      person included, opens a series page by name. */
  function ClickTarget(item: SearchItem): (r: string)
    ensures item.Movie? ==> r == MoviePath(item.movie.id, item.movie.title)
    ensures item.Tv? ==> r == SeriesPath(item.series.id, item.series.name)
    ensures item.Person? ==> r == SeriesPath(item.person.id, item.person.name)
  {
    match item
    case Movie(m) => MoviePath(m.id, m.title)
    case Tv(s) => SeriesPath(s.id, s.name)
    case Person(p) => SeriesPath(p.id, p.name)
  }

  class Carousel {
    var storeMedia: seq<SearchItem>
    var currentIndex: nat

    /** The index points at a slide, or is 0 while the list is empty. */
    predicate Valid()
      reads this
    {
      currentIndex == 0 || currentIndex < |storeMedia|
    }

    constructor ()
      ensures storeMedia == [] && currentIndex == 0 && Valid()
    {
      storeMedia := [];
      currentIndex := 0;
    }

    /** The trending list arrived; the index is kept. */
    method OnTrendingLoaded(items: seq<SearchItem>)
      modifies this
      ensures storeMedia == items && currentIndex == old(currentIndex)
      ensures old(currentIndex) == 0 ==> Valid()
    {
      storeMedia := items;
    }

    method GoToPrevious()
      requires Valid()
      modifies this
      ensures Valid() && storeMedia == old(storeMedia)
      ensures currentIndex == PrevIndex(old(currentIndex), |storeMedia|)
    {
      if |storeMedia| == 0 {
        return;
      }
      currentIndex := if currentIndex == 0 then |storeMedia| - 1 else currentIndex - 1;
    }

    method GoToNext()
      requires Valid()
      modifies this
      ensures Valid() && storeMedia == old(storeMedia)
      ensures currentIndex == NextIndex(old(currentIndex), |storeMedia|)
    {
      if |storeMedia| == 0 {
        return;
      }
      currentIndex := if currentIndex == |storeMedia| - 1 then 0 else currentIndex + 1;
    }

    /** The interval callback, which runs only while the list is non-empty; its last index is
        the one of the list it was started for, which is the current list because the interval
        is restarted whenever the list changes. */
    method AutoSlideTick()
      requires Valid() && |storeMedia| > 0
      modifies this
      ensures Valid() && storeMedia == old(storeMedia)
      ensures currentIndex == NextIndex(old(currentIndex), |storeMedia|)
    {
      var maxIndex := |storeMedia| - 1;
      currentIndex := if currentIndex == maxIndex then 0 else currentIndex + 1;
    }
  }
}
