/**
 * Extra memo and category slots earned by watching rewarded adverts. A free
 * user may keep 100 memos and 5 categories; beyond that each new item uses
 * up one earned slot. Pro users are never limited. The persistence of the
 * two counters and the advert plumbing are not modelled.
 */
module Rewards {
  const MemosPerReward: int := 10
  const CategoriesPerReward: int := 1
  const FreeMemoLimit: int := 100
  const FreeCategoryLimit: int := 5

  /** `MemoSlotType` and `CategorySlotType`, which have the same four cases. */
  datatype SlotType = ProUnlimited | FreeSlot | RewardSlot | LimitReached

  /**
   * `determineMemoSlotType` / `determineCategorySlotType`: Pro first, then
   * a free slot below the limit, then an earned slot, else nothing.
   */
  function DetermineSlot(current: int, limit: int, isPro: bool, rewards: int): (s: SlotType)
    ensures s == ProUnlimited <==> isPro
    ensures s == FreeSlot <==> !isPro && current < limit
    ensures s == RewardSlot <==> !isPro && current >= limit && rewards > 0
    ensures s == LimitReached <==> !isPro && current >= limit && rewards <= 0
  {
    if isPro then ProUnlimited
    else if current < limit then FreeSlot
    else if rewards > 0 then RewardSlot
    else LimitReached
  }

  /** `canCreateMemo` / `canCreateCategory`: exactly when some slot is available. */
  function CanCreate(current: int, limit: int, isPro: bool, rewards: int): (b: bool)
    ensures b <==> DetermineSlot(current, limit, isPro, rewards) != LimitReached
  {
    if isPro then true
    else if current < limit then true
    else rewards > 0
  }

  /** Earning slots never takes away the ability to create. */
  lemma CanCreateMonotone(current: int, limit: int, isPro: bool, rewards: int, more: int)
    requires rewards <= more
    ensures CanCreate(current, limit, isPro, rewards) ==> CanCreate(current, limit, isPro, more)
  {
  }

  class RewardManager {
    var rewardMemoCount: int
    var rewardCategoryCount: int

    /** Neither counter is ever negative. */
    ghost predicate Valid()
      reads this
    {
      rewardMemoCount >= 0 && rewardCategoryCount >= 0
    }

    /**
     * `init`: the counters are read from storage (`storedMemos` and
     * `storedCategories`, 0 when nothing was stored).
     */
    constructor (storedMemos: int, storedCategories: int)
      ensures rewardMemoCount == storedMemos && rewardCategoryCount == storedCategories
      ensures storedMemos >= 0 && storedCategories >= 0 ==> Valid()
    {
      rewardMemoCount := storedMemos;
      rewardCategoryCount := storedCategories;
    }

    function HasRewardMemos(): (b: bool)
      reads this
      ensures b <==> CanCreate(FreeMemoLimit, FreeMemoLimit, false, rewardMemoCount)
    {
      rewardMemoCount > 0
    }

    function HasRewardCategories(): (b: bool)
      reads this
      ensures b <==> CanCreate(FreeCategoryLimit, FreeCategoryLimit, false, rewardCategoryCount)
    {
      rewardCategoryCount > 0
    }

    /** `consumeRewardMemo`: uses one earned memo slot if there is one. */
    method ConsumeRewardMemo() returns (ok: bool)
      modifies this
      ensures ok <==> old(rewardMemoCount) > 0
      ensures rewardMemoCount == if ok then old(rewardMemoCount) - 1 else old(rewardMemoCount)
      ensures rewardCategoryCount == old(rewardCategoryCount)
      ensures old(Valid()) ==> Valid()
    {
      if !HasRewardMemos() {
        return false;
      }
      rewardMemoCount := rewardMemoCount - 1;
      return true;
    }

    /** `consumeRewardCategory`: uses one earned category slot if there is one. */
    method ConsumeRewardCategory() returns (ok: bool)
      modifies this
      ensures ok <==> old(rewardCategoryCount) > 0
      ensures rewardCategoryCount == if ok then old(rewardCategoryCount) - 1 else old(rewardCategoryCount)
      ensures rewardMemoCount == old(rewardMemoCount)
      ensures old(Valid()) ==> Valid()
    {
      if !HasRewardCategories() {
        return false;
      }
      rewardCategoryCount := rewardCategoryCount - 1;
      return true;
    }

    /** `grantMemoReward` (and `grantReward`, which only calls it). */
    method GrantMemoReward()
      modifies this
      ensures rewardMemoCount == old(rewardMemoCount) + MemosPerReward
      ensures rewardCategoryCount == old(rewardCategoryCount)
      ensures old(Valid()) ==> Valid()
    {
      rewardMemoCount := rewardMemoCount + MemosPerReward;
    }

    method GrantCategoryReward()
      modifies this
      ensures rewardCategoryCount == old(rewardCategoryCount) + CategoriesPerReward
      ensures rewardMemoCount == old(rewardMemoCount)
      ensures old(Valid()) ==> Valid()
    {
      rewardCategoryCount := rewardCategoryCount + CategoriesPerReward;
    }

    method GrantReward()
      modifies this
      ensures rewardMemoCount == old(rewardMemoCount) + MemosPerReward
      ensures rewardCategoryCount == old(rewardCategoryCount)
    {
      GrantMemoReward();
    }

    function MemoSlotType(currentMemoCount: int, isProVersion: bool): (s: SlotType)
      reads this
      ensures s == ProUnlimited <==> isProVersion
      ensures s == FreeSlot <==> !isProVersion && currentMemoCount < FreeMemoLimit
      ensures s == RewardSlot <==> !isProVersion && currentMemoCount >= FreeMemoLimit && HasRewardMemos()
    {
      DetermineSlot(currentMemoCount, FreeMemoLimit, isProVersion, rewardMemoCount)
    }

    /** `canCreateMemo`: a memo may be created exactly when a slot is found for it. */
    function CanCreateMemo(currentMemoCount: int, isProVersion: bool): (b: bool)
      reads this
      ensures b <==> MemoSlotType(currentMemoCount, isProVersion) != LimitReached
    {
      CanCreate(currentMemoCount, FreeMemoLimit, isProVersion, rewardMemoCount)
    }

    function CategorySlotType(currentCategoryCount: int, isProVersion: bool): (s: SlotType)
      reads this
      ensures s == ProUnlimited <==> isProVersion
      ensures s == FreeSlot <==> !isProVersion && currentCategoryCount < FreeCategoryLimit
      ensures s == RewardSlot <==> !isProVersion && currentCategoryCount >= FreeCategoryLimit && HasRewardCategories()
    {
      DetermineSlot(currentCategoryCount, FreeCategoryLimit, isProVersion, rewardCategoryCount)
    }

    function CanCreateCategory(currentCategoryCount: int, isProVersion: bool): (b: bool)
      reads this
      ensures b <==> CategorySlotType(currentCategoryCount, isProVersion) != LimitReached
    {
      CanCreate(currentCategoryCount, FreeCategoryLimit, isProVersion, rewardCategoryCount)
    }

    /**
     * `useRewardMemoIfNeeded`: an earned memo slot is consumed exactly when
     * the memo needs one; otherwise nothing changes.
     */
    method UseRewardMemoIfNeeded(currentMemoCount: int, isProVersion: bool) returns (used: bool)
      modifies this
      ensures used <==> old(MemoSlotType(currentMemoCount, isProVersion)) == RewardSlot
      ensures rewardMemoCount == if used then old(rewardMemoCount) - 1 else old(rewardMemoCount)
      ensures rewardCategoryCount == old(rewardCategoryCount)
      ensures old(Valid()) ==> Valid()
    {
      if MemoSlotType(currentMemoCount, isProVersion) == RewardSlot {
        used := ConsumeRewardMemo();
      } else {
        used := false;
      }
    }

    /** `useRewardCategoryIfNeeded`: the same rule for categories; the memo counter is untouched. */
    method UseRewardCategoryIfNeeded(currentCategoryCount: int, isProVersion: bool) returns (used: bool)
      modifies this
      ensures used <==> old(CategorySlotType(currentCategoryCount, isProVersion)) == RewardSlot
      ensures rewardCategoryCount == if used then old(rewardCategoryCount) - 1 else old(rewardCategoryCount)
      ensures rewardMemoCount == old(rewardMemoCount)
      ensures old(Valid()) ==> Valid()
    {
      if CategorySlotType(currentCategoryCount, isProVersion) == RewardSlot {
        used := ConsumeRewardCategory();
      } else {
        used := false;
      }
    }
  }
}
