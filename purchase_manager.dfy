/**
 * In-app purchase state: which products the user owns, the derived Pro
 * flag and the feature gates that depend on it. The store's transaction
 * feed is passed in as a list of entitlements; purchasing, restoring and
 * the shared-container flag are not modelled.
 */
module PurchaseManager {
  import opened Wrappers
  import Rewards

  const MonthlySubscriptionId: string := "com.yokAppDev.quickMemoApp.pro.month"
  const LifetimeId: string := "yokAppDev.quickMemoApp.pro"
  const AllProductIds: set<string> := {MonthlySubscriptionId, LifetimeId}

  /** Swift's `Int.max` on a 64-bit device. */
  const IntMax: int := 0x7FFF_FFFF_FFFF_FFFF
  const FreeMaxTagsPerMemo: int := 15

  /** `PurchaseState`. */
  datatype PurchaseState = NotStarted | Purchasing | Purchased | Failed(message: string) | Cancelled

  /** The hand-written `==` of `PurchaseState`. */
  predicate StateEquals(lhs: PurchaseState, rhs: PurchaseState)
  {
    match (lhs, rhs)
    case (NotStarted, NotStarted) => true
    case (Purchasing, Purchasing) => true
    case (Purchased, Purchased) => true
    case (Cancelled, Cancelled) => true
    case (Failed(l), Failed(r)) => l == r
    case _ => false
  }

  /** The hand-written `==` is exactly structural equality. */
  lemma StateEqualsIsEquality(lhs: PurchaseState, rhs: PurchaseState)
    ensures StateEquals(lhs, rhs) <==> lhs == rhs
  {
  }

  /** One element of the store's current-entitlements feed. */
  datatype Entitlement =
    | Verified(productId: string, revoked: bool, autoRenewable: bool, expiration: Option<int>)
    | Unverified(productId: string)

  /** The products a feed grants: every verified, unrevoked entry. */
  function GrantedIds(feed: seq<Entitlement>): set<string>
  {
    if feed == [] then {}
    else
      var rest := GrantedIds(feed[..|feed| - 1]);
      var e := feed[|feed| - 1];
      if e.Verified? && !e.revoked then rest + {e.productId} else rest
  }

  /** A verified, unrevoked entry grants its product whatever its expiration date. */
  lemma {:induction false} GrantedIdsMembers(feed: seq<Entitlement>, id: string)
    ensures id in GrantedIds(feed) <==> exists i :: 0 <= i < |feed| && feed[i].Verified? && !feed[i].revoked && feed[i].productId == id
  {
    if feed != [] {
      var init := feed[..|feed| - 1];
      GrantedIdsMembers(init, id);
      if exists i :: 0 <= i < |init| && init[i].Verified? && !init[i].revoked && init[i].productId == id {
        var i :| 0 <= i < |init| && init[i].Verified? && !init[i].revoked && init[i].productId == id;
        assert feed[i] == init[i];
      }
      if exists i :: 0 <= i < |feed| && feed[i].Verified? && !feed[i].revoked && feed[i].productId == id {
        var i :| 0 <= i < |feed| && feed[i].Verified? && !feed[i].revoked && feed[i].productId == id;
        if i < |init| {
          assert init[i] == feed[i];
        }
      }
    }
  }

  /** `isProVersion` as derived from the owned products: some Pro product is owned. */
  predicate ProFromIds(ids: set<string>)
  {
    ids * AllProductIds != {}
  }

  /** Owning either of the two Pro products, and nothing else, makes the user Pro. */
  lemma ProFromIdsNamed(ids: set<string>)
    ensures ProFromIds(ids) <==> MonthlySubscriptionId in ids || LifetimeId in ids
  {
    if MonthlySubscriptionId in ids {
      assert MonthlySubscriptionId in ids * AllProductIds;
    } else if LifetimeId in ids {
      assert LifetimeId in ids * AllProductIds;
    }
  }

  class PurchaseManager {
    var purchasedProductIds: set<string>
    var isProVersion: bool
    var purchaseState: PurchaseState

    constructor ()
      ensures purchasedProductIds == {} && !isProVersion && purchaseState == NotStarted
    {
      purchasedProductIds := {};
      isProVersion := false;
      purchaseState := NotStarted;
    }

    /**
     * `updatePurchasedProducts`: collects the products of the verified,
     * unrevoked entitlements (the extra insert for a live subscription adds
     * nothing new) and derives the Pro flag from them.
     */
    method UpdatePurchasedProducts(feed: seq<Entitlement>, now: int)
      modifies this
      ensures purchasedProductIds == GrantedIds(feed)
      ensures isProVersion <==> ProFromIds(purchasedProductIds)
      ensures isProVersion <==> MonthlySubscriptionId in purchasedProductIds || LifetimeId in purchasedProductIds
      ensures purchaseState == old(purchaseState)
    {
      var ids: set<string> := {};
      var i := 0;
      while i < |feed|
        invariant 0 <= i <= |feed|
        invariant ids == GrantedIds(feed[..i])
      {
        assert feed[..i + 1][..i] == feed[..i];
        match feed[i] {
          case Verified(productId, revoked, autoRenewable, expiration) =>
            if !revoked {
              ids := ids + {productId};
              if autoRenewable {
                if expiration.Some? && expiration.value > now {
                  ids := ids + {productId};
                }
              } else {
                ids := ids + {productId};
              }
            }
          case Unverified(_) =>
        }
        i := i + 1;
      }
      assert feed[..|feed|] == feed;
      purchasedProductIds := ids;
      isProVersion := ids * AllProductIds != {};
      ProFromIdsNamed(ids);
    }

    /** `isPurchased`. */
    function IsPurchased(productId: string): (b: bool)
      reads this
      ensures b <==> productId in purchasedProductIds
    {
      productId in purchasedProductIds
    }

    /** `canCreateMoreMemos`: unlimited for Pro, otherwise fewer than 100 memos. */
    function CanCreateMoreMemos(currentCount: int): (b: bool)
      reads this
      ensures b <==> isProVersion || currentCount < Rewards.FreeMemoLimit
      ensures b <==> Rewards.CanCreate(currentCount, Rewards.FreeMemoLimit, isProVersion, 0)
    {
      if isProVersion then true else currentCount < 100
    }

    /** `canCreateMoreCategories`: unlimited for Pro, otherwise fewer than 5 categories. */
    function CanCreateMoreCategories(currentCount: int): (b: bool)
      reads this
      ensures b <==> isProVersion || currentCount < Rewards.FreeCategoryLimit
      ensures b <==> Rewards.CanCreate(currentCount, Rewards.FreeCategoryLimit, isProVersion, 0)
    {
      if isProVersion then true else currentCount < 5
    }

    /** `canUseUnlimitedTags`. */
    function CanUseUnlimitedTags(): (b: bool)
      reads this
      ensures b <==> isProVersion
    {
      if isProVersion then true else false
    }

    /** `getMaxTagsPerMemo`: `Int.max` for Pro, 15 otherwise. */
    function GetMaxTagsPerMemo(): (n: int)
      reads this
      ensures isProVersion ==> n == IntMax
      ensures !isProVersion ==> n == FreeMaxTagsPerMemo
      ensures n >= FreeMaxTagsPerMemo
    {
      if isProVersion then IntMax else 15
    }
  }
}
