/**
 * The wizard's page navigation. A stacked widget shows one page at a time; Next and Prev move
 * cyclically through the pages (the last page wraps to the first and back), the title follows
 * the page, and the dot indicator is kept on the current page. The logic check that guards
 * both buttons always passes. Layout and styling are left out.
 */
module Wizard {
  import opened DotProgress

  /** The page after `index`, wrapping from the last page to the first. */
  function NextIndex(index: int, count: int): (r: int)
    requires count > 0 && 0 <= index < count
    ensures 0 <= r < count
    ensures index < count - 1 ==> r == index + 1
    ensures index == count - 1 ==> r == 0
  {
    (index + 1) % count
  }

  /** The page before `index`, wrapping from the first page to the last. */
  function PrevIndex(index: int, count: int): (r: int)
    requires count > 0 && 0 <= index < count
    ensures 0 <= r < count
    ensures index > 0 ==> r == index - 1
    ensures index == 0 ==> r == count - 1
  {
    (count + index - 1) % count
  }

  /** Next then Prev, or Prev then Next, comes back to the same page. */
  lemma NextPrevInverse(index: int, count: int)
    requires count > 0 && 0 <= index < count
    ensures PrevIndex(NextIndex(index, count), count) == index
    ensures NextIndex(PrevIndex(index, count), count) == index
  {
  }

  /** The title of a page: nine fixed titles, and no title for any other index. */
  function Title(index: int): (t: string)
    ensures t == "" <==> !(0 <= index <= 8)
  {
    match index
    case 0 => "Import View Only Wallet"
    case 1 => "Connect"
    case 2 => "Synchronize Wallet"
    case 3 => "Export Outputs"
    case 4 => "Import Key Images"
    case 5 => "Send XMR"
    case 6 => "Export Unsigned Transaction"
    case 7 => "Import Signed Transaction"
    case 8 => "Sending..."
    case _ => ""
  }

  /** Each page has its own title, so the title identifies the page. */
  lemma TitlesDistinct(i: int, j: int)
    requires 0 <= i <= 8 && 0 <= j <= 8 && i != j
    ensures Title(i) != Title(j)
  {
  }

  /** The check before each move; it has no conditions, so navigation is never blocked. */
  function CheckLogic(): (ok: bool)
    ensures ok
  {
    true
  }

  class MainWindow {
    /** The number of pages of the stacked widget. */
    const pageCount: int
    const indicator: DotProgressIndicator
    /** The stacked widget's current index. */
    var index: int
    var title: string
    var prevEnabled: bool

    /** The page is in range, the indicator is on it with one dot per page, and the title is its title. */
    predicate Valid()
      reads this, indicator
    {
      pageCount > 0 && 0 <= index < pageCount
      && indicator.totalSteps == pageCount && indicator.currentStep == index
      && title == Title(index)
    }

    /** Starts on page 0 with Prev disabled. */
    constructor (pageCount: int)
      requires pageCount > 0
      ensures Valid() && fresh(indicator)
      ensures this.pageCount == pageCount && index == 0 && title == Title(0) && !prevEnabled
    {
      this.pageCount := pageCount;
      var dots := new DotProgressIndicator();
      indicator := dots;
      prevEnabled := false;
      index := 0;
      new;
      SyncDotIndicator(0);
      dots.SetTotalSteps(pageCount);
      dots.SetCurrentStep(0);
    }

    /** The `currentChanged` slot: moves the indicator and sets the page's title. */
    method SyncDotIndicator(newIndex: int)
      modifies this, indicator
      ensures title == Title(newIndex)
      ensures indicator.currentStep == StepAfterSet(old(indicator.currentStep), indicator.totalSteps, newIndex)
      ensures indicator.totalSteps == old(indicator.totalSteps)
      ensures index == old(index) && prevEnabled == old(prevEnabled)
    {
      indicator.SetCurrentStep(newIndex);
      title := Title(newIndex);
    }

    /** `setCurrentIndex`: a change of page emits `currentChanged`, which syncs the indicator and title. */
    method SetCurrentIndex(newIndex: int)
      requires Valid() && 0 <= newIndex < pageCount
      modifies this, indicator
      ensures Valid() && index == newIndex && prevEnabled == old(prevEnabled)
    {
      if newIndex != index {
        index := newIndex;
        SyncDotIndicator(newIndex);
      }
    }

    method Next()
      requires Valid()
      modifies this, indicator
      ensures Valid() && index == NextIndex(old(index), pageCount) && prevEnabled == old(prevEnabled)
    {
      if CheckLogic() {
        var currentIndex := index;
        var nextIndex := (currentIndex + 1) % pageCount;
        SetCurrentIndex(nextIndex);
        indicator.SetCurrentStep(nextIndex);
      }
    }

    method Prev()
      requires Valid()
      modifies this, indicator
      ensures Valid() && index == PrevIndex(old(index), pageCount) && prevEnabled == old(prevEnabled)
    {
      if CheckLogic() {
        var currentIndex := index;
        var prevIndex := (pageCount + currentIndex - 1) % pageCount;
        SetCurrentIndex(prevIndex);
        indicator.SetCurrentStep(prevIndex);
      }
    }
  }
}
