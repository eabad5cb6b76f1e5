/**
 * The screens that choose which categories the widget and the watch show.
 * The stored selections (the widget list and the watch list in the app
 * group) are passed in; what a save would store is returned.
 */
module WidgetSettings {
  import opened Wrappers
  import opened DataModels
  import opened Seqs
  import Sorting
  import DataManager
  import PurchaseManager

  /** The large widget shows at most eight categories. */
  const MaxWidgetCategories: nat := 8
  /** The watch shows at most four. */
  const MaxWatchCategories: nat := 4

  /** The names of existing categories. */
  function CategoryNameSet(categories: seq<Category>): set<string>
  {
    set c | c in categories :: c.name
  }

  function NameIn(names: set<string>): Category -> bool { (c: Category) => c.name in names }

  /**
   * What `saveSettings` stores: the names of the existing categories that
   * are selected, in category order. Re-reading it gives back the selection
   * less any name that no longer names a category.
   */
  function WidgetSelection(categories: seq<Category>, selected: set<string>): (r: seq<string>)
    ensures SetOf(r) == selected * CategoryNameSet(categories)
    ensures exists picked :: Sorting.SortedBy(picked, OrderKey) && multiset(picked) == multiset(Filter(categories, NameIn(selected)))
                             && r == NamesOf(picked)
  {
    var picked := Sorting.SortBy(Filter(categories, NameIn(selected)), OrderKey);
    Sorting.SameMembers(picked, Filter(categories, NameIn(selected)));
    forall n ensures n in SetOf(NamesOf(picked)) <==> n in selected * CategoryNameSet(categories) {
      if n in selected * CategoryNameSet(categories) {
        var c :| c in categories && c.name == n;
        assert c in picked;
        var i :| 0 <= i < |picked| && picked[i] == c;
        assert NamesOf(picked)[i] == n;
      }
      if n in SetOf(NamesOf(picked)) {
        var i :| 0 <= i < |picked| && NamesOf(picked)[i] == n;
        assert picked[i] in picked;
      }
    }
    NamesOf(picked)
  }

  class WidgetCategorySettings {
    var selectedCategories: set<string>
    var showingPurchaseAlert: bool
    var showingSaveConfirmation: bool

    /** `init`: the stored widget categories. */
    constructor (stored: seq<string>)
      ensures selectedCategories == SetOf(stored) && !showingPurchaseAlert && !showingSaveConfirmation
    {
      selectedCategories := SetOf(stored);
      showingPurchaseAlert := false;
      showingSaveConfirmation := false;
    }

    /** `canSelectCategory`: free users may only keep what is already selected. */
    function CanSelectCategory(name: string, pm: PurchaseManager.PurchaseManager): (b: bool)
      reads this, pm
      ensures b <==> pm.isProVersion || name in selectedCategories
    {
      if !pm.isProVersion then name in selectedCategories else true
    }

    /**
     * `toggleCategory`: a free user adding a category gets the purchase
     * alert; otherwise selecting adds while fewer than eight are selected
     * and deselecting removes. A free user's selection only shrinks, and no
     * toggle takes a selection of at most eight past eight.
     */
    method ToggleCategory(name: string, isSelected: bool, pm: PurchaseManager.PurchaseManager)
      modifies this
      ensures !pm.isProVersion && name !in old(selectedCategories) ==> selectedCategories == old(selectedCategories) && showingPurchaseAlert
      ensures (pm.isProVersion || name in old(selectedCategories)) && isSelected ==>
                selectedCategories == (if |old(selectedCategories)| < MaxWidgetCategories then old(selectedCategories) + {name} else old(selectedCategories))
      ensures (pm.isProVersion || name in old(selectedCategories)) && !isSelected ==> selectedCategories == old(selectedCategories) - {name}
      ensures pm.isProVersion || name in old(selectedCategories) ==> showingPurchaseAlert == old(showingPurchaseAlert)
      ensures !pm.isProVersion ==> selectedCategories <= old(selectedCategories)
      ensures |old(selectedCategories)| <= MaxWidgetCategories ==> |selectedCategories| <= MaxWidgetCategories
      ensures showingSaveConfirmation == old(showingSaveConfirmation)
    {
      if !pm.isProVersion && name !in selectedCategories {
        showingPurchaseAlert := true;
        return;
      }
      if isSelected {
        if |selectedCategories| < MaxWidgetCategories {
          selectedCategories := selectedCategories + {name};
        }
      } else {
        selectedCategories := selectedCategories - {name};
      }
    }

    /** `hasChanges`: the selection differs from the stored list, as sets. */
    function HasChanges(stored: seq<string>): (b: bool)
      reads this
      ensures b <==> exists n :: (n in selectedCategories) != (n in stored)
    {
      selectedCategories != SetOf(stored)
    }

    /** `saveSettings`: stores the selection as `WidgetSelection` orders it and confirms. */
    method SaveSettings(dm: DataManager.DataManager) returns (saved: seq<string>)
      modifies this
      ensures saved == WidgetSelection(dm.categories, old(selectedCategories))
      ensures selectedCategories == old(selectedCategories) && showingSaveConfirmation
      ensures showingPurchaseAlert == old(showingPurchaseAlert)
    {
      saved := WidgetSelection(dm.categories, selectedCategories);
      showingSaveConfirmation := true;
    }
  }

  /**
   * Saving and opening the screen again shows no changes, as long as every
   * selected name is the name of a category.
   */
  lemma SavedSelectionHasNoChanges(categories: seq<Category>, selected: set<string>)
    requires selected <= CategoryNameSet(categories)
    ensures SetOf(WidgetSelection(categories, selected)) == selected
  {
  }

  // ---------------------------------------------------------------------------
  // WatchSettingsView
  // ---------------------------------------------------------------------------

  /** The product the watch settings screen checks for Pro. */
  const WatchSettingsProductId: string := "pro.quickmemo.monthly"

  /**
   * The screen's Pro check as written: ownership of `pro.quickmemo.monthly`,
   * which is neither of the products the store sells, so no set of the
   * app's own products passes it.
   */
  function WatchIsProAsWritten(ownedProducts: set<string>): (b: bool)
    ensures ownedProducts <= PurchaseManager.AllProductIds ==> !b
  {
    WatchSettingsProductId in ownedProducts
  }

  /** The Pro check the rest of the app uses. */
  function WatchIsPro(ownedProducts: set<string>): (b: bool)
    ensures b <==> PurchaseManager.MonthlySubscriptionId in ownedProducts || PurchaseManager.LifetimeId in ownedProducts
  {
    PurchaseManager.ProFromIdsNamed(ownedProducts);
    PurchaseManager.ProFromIds(ownedProducts)
  }

  /**
   * A user who bought the lifetime product (or subscribes monthly) is Pro
   * everywhere else but not on this screen: the product it checks is none
   * the store feed grants for either purchase.
   */
  lemma WatchProCheckMissesBuyers()
    ensures var feed := [PurchaseManager.Verified(PurchaseManager.LifetimeId, false, false, None)];
            WatchIsPro(PurchaseManager.GrantedIds(feed)) && !WatchIsProAsWritten(PurchaseManager.GrantedIds(feed))
    ensures var feed := [PurchaseManager.Verified(PurchaseManager.MonthlySubscriptionId, false, true, Some(1))];
            WatchIsPro(PurchaseManager.GrantedIds(feed)) && !WatchIsProAsWritten(PurchaseManager.GrantedIds(feed))
  {
    var feed := [PurchaseManager.Verified(PurchaseManager.LifetimeId, false, false, None)];
    assert feed[..0] == [];
    var feed2 := [PurchaseManager.Verified(PurchaseManager.MonthlySubscriptionId, false, true, Some(1))];
    assert feed2[..0] == [];
  }

  /**
   * The guard of the watch settings screen: as written (`corrected` false)
   * or the app-wide Pro check (`corrected` true).
   */
  function WatchPro(ownedProducts: set<string>, corrected: bool): (b: bool)
    ensures corrected ==> (b <==> PurchaseManager.MonthlySubscriptionId in ownedProducts || PurchaseManager.LifetimeId in ownedProducts)
    ensures !corrected ==> (b <==> WatchSettingsProductId in ownedProducts)
    ensures !corrected && ownedProducts <= PurchaseManager.AllProductIds ==> !b
  {
    if corrected then WatchIsPro(ownedProducts) else WatchIsProAsWritten(ownedProducts)
  }

  /** `defaultFreeCategories`: the localized `work`, `personal` and `other`, in that order. */
  function DefaultFreeCategories(localizedName: string -> string): (r: seq<string>)
    ensures |r| == 3 && r[0] == localizedName("work") && r[1] == localizedName("personal") && r[2] == localizedName("other")
  {
    seq(3, i requires 0 <= i < 3 => localizedName(["work", "personal", "other"][i]))
  }

  class WatchSettings {
    var selectedCategories: set<string>

    constructor ()
      ensures selectedCategories == {}
    {
      selectedCategories := {};
    }

    /**
     * `loadSelectedCategories`: for a Pro user, the saved list, else the
     * names of the first four categories; nothing changes for others. As
     * written no buyer of the app's products passes the screen's check, so
     * nothing is ever loaded; `corrected` applies the app-wide check instead.
     */
    method LoadSelectedCategories(pm: PurchaseManager.PurchaseManager, saved: Option<seq<string>>, dm: DataManager.DataManager, corrected: bool)
      modifies this
      ensures !WatchPro(pm.purchasedProductIds, corrected) ==> selectedCategories == old(selectedCategories)
      ensures !corrected && pm.purchasedProductIds <= PurchaseManager.AllProductIds ==> selectedCategories == old(selectedCategories)
      ensures WatchPro(pm.purchasedProductIds, corrected) && saved.Some? ==> selectedCategories == SetOf(saved.value)
      ensures WatchPro(pm.purchasedProductIds, corrected) && saved.None? ==>
                selectedCategories == SetOf(NamesOf(Prefix(dm.categories, MaxWatchCategories)))
      ensures WatchPro(pm.purchasedProductIds, corrected) && saved.None? ==> |selectedCategories| <= MaxWatchCategories
    {
      if WatchPro(pm.purchasedProductIds, corrected) {
        if saved.Some? {
          selectedCategories := SetOf(saved.value);
        } else {
          var names := NamesOf(Prefix(dm.categories, MaxWatchCategories));
          SetOfSize(names);
          selectedCategories := SetOf(names);
        }
      }
    }

    /** `toggleCategory`: removes a selected name; adds one only while fewer than four are selected. */
    method ToggleCategory(name: string)
      modifies this
      ensures name in old(selectedCategories) ==> selectedCategories == old(selectedCategories) - {name}
      ensures name !in old(selectedCategories) ==>
                selectedCategories == (if |old(selectedCategories)| < MaxWatchCategories then old(selectedCategories) + {name} else old(selectedCategories))
      ensures |old(selectedCategories)| <= MaxWatchCategories ==> |selectedCategories| <= MaxWatchCategories
    {
      if name in selectedCategories {
        selectedCategories := selectedCategories - {name};
      } else if |selectedCategories| < MaxWatchCategories {
        selectedCategories := selectedCategories + {name};
      }
    }

    /**
     * `saveAndSync`: a Pro user's selection is written to the app group (when
     * it is there) as a list; for anyone else nothing is written. As written
     * no buyer of the app's products passes the screen's check, so nothing is
     * ever written; `corrected` applies the app-wide check instead.
     */
    method SaveAndSync(pm: PurchaseManager.PurchaseManager, suiteAvailable: bool, corrected: bool) returns (written: Option<seq<string>>)
      ensures !WatchPro(pm.purchasedProductIds, corrected) ==> written.None?
      ensures !corrected && pm.purchasedProductIds <= PurchaseManager.AllProductIds ==> written.None?
      ensures WatchPro(pm.purchasedProductIds, corrected) && suiteAvailable ==>
                written.Some? && SetOf(written.value) == selectedCategories && |written.value| == |selectedCategories|
      ensures !suiteAvailable ==> written.None?
    {
      written := None;
      if WatchPro(pm.purchasedProductIds, corrected) && suiteAvailable {
        var list := SetToSeq(selectedCategories);
        written := Some(list);
      }
    }
  }
}
