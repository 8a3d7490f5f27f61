/**
 * The page: it owns the reload flag, hands `ReloadFiles` to the upload
 * component and the flag's value to the listing component.
 */
module Page {
  import Common
  import Listing

  class Home {
    var reload: bool
    /** Every value `reload` has held, oldest first; the listing is rendered with each. */
    ghost var history: seq<bool>

    ghost predicate Valid()
      reads this
    {
      |history| > 0 && history[|history| - 1] == reload && Listing.NeverFalseAgain(history)
    }

    /** The flag starts out false. */
    constructor ()
      ensures Valid() && !reload && history == [false]
    {
      reload := false;
      history := [false];
    }

    /**
     * The callback handed to the upload component: the flag is true afterwards
     * whatever it was before, so a second call leaves it as the first did.
     */
    method ReloadFiles()
      requires Valid()
      modifies this
      ensures Valid() && reload
      ensures history == old(history) + [true]
    {
      reload := true;
      history := history + [true];
    }
  }

  /**
   * The flag never returns to false, so the listing's reload effect, shown
   * every value the flag has held, fetches once if `ReloadFiles` was ever
   * called and never otherwise: only the first successful upload refetches
   * through the flag.
   */
  lemma OnlyFirstReloadRefetches(home: Home)
    requires home.Valid()
    ensures Listing.ReloadFetchCount(Common.None, home.history) == if home.reload then 1 else 0
  {
    var h := home.history;
    Listing.ReloadFetchesOnce(Common.None, h);
    if true in h {
      var i :| 0 <= i < |h| && h[i];
      assert i == |h| - 1 || h[|h| - 1];
    }
  }
}
