/**
 * The landing page's FAQ accordion: six questions, at most one open.
 */
module MainPage {
  /** The keys of the six questions. */
  predicate IsEntry(k: int)
  {
    1 <= k <= 6
  }

  /** The new open key after a click on `key`: clicking the open entry closes it, any other opens it. */
  function Toggled(faq: int, key: int): (r: int)
    ensures key == faq ==> r == 0
    ensures key != faq ==> r == key
  {
    if key == faq then 0 else key
  }

  /** An entry is open exactly when its key is the state. */
  predicate IsOpen(faq: int, k: int)
  {
    faq == k
  }

  /**
   * After any click on an entry, at most one entry is open: the clicked one,
   * unless it was open before.
   */
  lemma ClickOpensOnlyClicked(faq: int, key: int, k: int)
    requires IsEntry(key) && IsEntry(k)
    ensures IsOpen(Toggled(faq, key), k) <==> k == key && faq != key
  {
  }

  /** Two clicks on the same entry from a closed accordion close it again. */
  lemma ToggleTwiceCloses(key: int)
    requires IsEntry(key)
    ensures Toggled(0, key) == key && Toggled(Toggled(0, key), key) == 0
  {
  }

  class FaqAccordion {
    var faq: int

    constructor()
      ensures faq == 0
    {
      faq := 0;
    }

    method SetFaqPage(key: int)
      modifies this
      ensures faq == Toggled(old(faq), key)
    {
      if key == faq {
        faq := 0;
      } else {
        faq := key;
      }
    }

    /** No entry is open while the state is 0, and never more than one. */
    function OpenEntries(): (open: set<int>)
      reads this
      ensures forall k :: k in open <==> IsEntry(k) && IsOpen(faq, k)
      ensures |open| <= 1
    {
      if IsEntry(faq) then {faq} else {}
    }
  }
}
