/** The sample pager (src/app/samples/page.tsx): five page images, the
    current page, a transition lock that a 300 ms timeout releases, and the
    set of images already loaded. The timeout is the method `TimerFires`,
    an image's `onload` is `ImageLoaded`. */
module SamplesPager {

  const PageCount := 5

  predicate IsPage(i: int) {
    0 <= i < PageCount
  }

  /** Lines 35-37: the neighbours of the current page that exist and have
      not been loaded yet, previous first. */
  function AdjacentToPreload(current: int, loaded: set<int>): (r: seq<int>)
    ensures forall i :: i in r <==> (i == current - 1 || i == current + 1) && IsPage(i) && i !in loaded
    ensures |r| <= 2
    ensures |r| == 2 ==> r == [current - 1, current + 1]
  {
    var before := if IsPage(current - 1) && current - 1 !in loaded then [current - 1] else [];
    var after := if IsPage(current + 1) && current + 1 !in loaded then [current + 1] else [];
    before + after
  }

  class Pager {
    var currentPage: int
    var isTransitioning: bool
    var loaded: set<int>
    /** Timeouts scheduled and not yet fired. */
    var pendingTimers: nat

    /** The page is in range, only real pages are loaded, and the lock is
        held exactly while one timeout is pending. */
    predicate Valid()
      reads this
    {
      && IsPage(currentPage)
      && (forall i :: i in loaded ==> IsPage(i))
      && pendingTimers == (if isTransitioning then 1 else 0)
    }

    constructor ()
      ensures Valid()
      ensures currentPage == 0 && !isTransitioning && loaded == {} && pendingTimers == 0
    {
      currentPage := 0;
      isTransitioning := false;
      loaded := {};
      pendingTimers := 0;
    }

    /** Lines 51-57: forward one page unless on the last page or while the
        lock is held; a move takes the lock and schedules its release. */
    method NextPage()
      requires Valid()
      modifies this
      ensures Valid() && loaded == old(loaded)
      ensures old(currentPage) < PageCount - 1 && !old(isTransitioning) ==>
        currentPage == old(currentPage) + 1 && isTransitioning && pendingTimers == old(pendingTimers) + 1
      ensures old(currentPage) == PageCount - 1 || old(isTransitioning) ==>
        currentPage == old(currentPage) && isTransitioning == old(isTransitioning) && pendingTimers == old(pendingTimers)
    {
      if currentPage < PageCount - 1 && !isTransitioning {
        isTransitioning := true;
        currentPage := currentPage + 1;
        pendingTimers := pendingTimers + 1;
      }
    }

    /** Lines 59-65: back one page unless on page 0 or while the lock is
        held. */
    method PrevPage()
      requires Valid()
      modifies this
      ensures Valid() && loaded == old(loaded)
      ensures old(currentPage) > 0 && !old(isTransitioning) ==>
        currentPage == old(currentPage) - 1 && isTransitioning && pendingTimers == old(pendingTimers) + 1
      ensures old(currentPage) == 0 || old(isTransitioning) ==>
        currentPage == old(currentPage) && isTransitioning == old(isTransitioning) && pendingTimers == old(pendingTimers)
    {
      if currentPage > 0 && !isTransitioning {
        isTransitioning := true;
        currentPage := currentPage - 1;
        pendingTimers := pendingTimers + 1;
      }
    }

    /** Lines 67-73: jump to a page unless it is the current one or while
        the lock is held. The indicator buttons (line 127) only pass page
        indices, and `goToPage` itself checks no bounds. */
    method GoToPage(index: int)
      requires Valid() && IsPage(index)
      modifies this
      ensures Valid() && loaded == old(loaded)
      ensures index != old(currentPage) && !old(isTransitioning) ==>
        currentPage == index && isTransitioning && pendingTimers == old(pendingTimers) + 1
      ensures index == old(currentPage) || old(isTransitioning) ==>
        currentPage == old(currentPage) && isTransitioning == old(isTransitioning) && pendingTimers == old(pendingTimers)
    {
      if index != currentPage && !isTransitioning {
        isTransitioning := true;
        currentPage := index;
        pendingTimers := pendingTimers + 1;
      }
    }

    /** The 300 ms timeout: the only event that releases the lock. */
    method TimerFires()
      requires Valid() && pendingTimers > 0
      modifies this
      ensures Valid()
      ensures !isTransitioning && pendingTimers == old(pendingTimers) - 1
      ensures currentPage == old(currentPage) && loaded == old(loaded)
    {
      isTransitioning := false;
      pendingTimers := pendingTimers - 1;
    }

    /** Lines 22-24 and 41-43: an image finished loading; the set only
        grows. */
    method ImageLoaded(index: int)
      requires Valid() && IsPage(index)
      modifies this`loaded
      ensures Valid()
      ensures loaded == old(loaded) + {index}
    {
      loaded := loaded + {index};
    }
  }
}
