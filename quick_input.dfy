/**
 * The quick-input shortcut: the category used last and a short list of
 * recently used categories, most recent first, without repeats.
 */
module QuickInput {
  import opened Wrappers
  import opened Seqs

  const MaxRecentCategories: nat := 3
  const DefaultCategory: string := "仕事"
  /** Offered before any category has been used. */
  const PreloadDefaults: seq<string> := ["仕事", "プライベート", "アイデア"]

  /** `firstIndex(of:)` followed by `remove(at:)`: drops the first occurrence of `x`, if any. */
  function RemoveFirst<T(==)>(s: seq<T>, x: T): (r: seq<T>)
    ensures x in s ==> |r| == |s| - 1
    ensures x !in s ==> r == s
    ensures multiset(r) == multiset(s) - multiset{x}
  {
    if s == [] then []
    else
      assert s == [s[0]] + s[1..];
      if s[0] == x then s[1..] else [s[0]] + RemoveFirst(s[1..], x)
  }

  /** Removing an element adds nothing. */
  lemma {:induction false} RemoveFirstMembers<T>(s: seq<T>, x: T)
    ensures forall y :: y in RemoveFirst(s, x) ==> y in s
  {
    if s != [] && s[0] != x {
      RemoveFirstMembers(s[1..], x);
    }
  }

  /**
   * The first occurrence, at `i`, is cut out and nothing else moves: the
   * entries before it and after it keep their order.
   */
  lemma {:induction false} RemoveFirstAt<T>(s: seq<T>, x: T, i: nat)
    requires i < |s| && s[i] == x && x !in s[..i]
    ensures RemoveFirst(s, x) == s[..i] + s[i + 1..]
  {
    if i == 0 {
      assert s[0] == x;
    } else {
      assert s[0] != x by { assert s[0] in s[..i]; }
      assert s[1..][..i - 1] == s[1..i];
      RemoveFirstAt(s[1..], x, i - 1);
      assert s[..i] == [s[0]] + s[1..i];
      assert s[1..][i..] == s[i + 1..];
    }
  }

  /** Removing the only occurrence leaves a list without `x` and without repeats. */
  lemma {:induction false} RemoveFirstNoDuplicates<T>(s: seq<T>, x: T)
    requires NoDuplicates(s)
    ensures NoDuplicates(RemoveFirst(s, x)) && x !in RemoveFirst(s, x)
  {
    if s != [] {
      NoDuplicatesTail(s);
      if s[0] != x {
        RemoveFirstNoDuplicates(s[1..], x);
        RemoveFirstMembers(s[1..], x);
        NoDuplicatesCons(s[0], RemoveFirst(s[1..], x));
      }
    }
  }

  /** The new recent list: `c` first, then the others in order, cut to the cap. */
  function Promote<T(==)>(recent: seq<T>, c: T): (r: seq<T>)
    ensures r != [] && r[0] == c && |r| <= MaxRecentCategories
  {
    [c] + Prefix(RemoveFirst(recent, c), MaxRecentCategories - 1)
  }

  /** Only the entries beyond the cap are lost; a new name makes the list one longer. */
  lemma PromoteLength<T>(recent: seq<T>, c: T)
    ensures var n := |recent| + (if c in recent then 0 else 1);
      |Promote(recent, c)| == if n < MaxRecentCategories then n else MaxRecentCategories
  {
  }

  /** Promoting keeps the list free of repeats, and adds no name other than `c`. */
  lemma PromoteKeepsDistinct<T>(recent: seq<T>, c: T)
    requires NoDuplicates(recent)
    ensures NoDuplicates(Promote(recent, c))
    ensures forall x :: x in Promote(recent, c) ==> x == c || x in recent
  {
    var t := RemoveFirst(recent, c);
    RemoveFirstNoDuplicates(recent, c);
    RemoveFirstMembers(recent, c);
    var tail := Prefix(t, MaxRecentCategories - 1);
    NoDuplicatesPrefix(t, |tail|);
    NoDuplicatesCons(c, tail);
  }

  class QuickInputManager {
    var lastUsedCategory: string
    var quickInputEnabled: bool
    var recentCategories: seq<string>

    /**
     * `init` with `loadSettings`: the stored values, or the default category
     * and an empty list. A missing switch reads as false.
     */
    constructor (storedLast: Option<string>, storedRecent: Option<seq<string>>, storedEnabled: bool)
      ensures lastUsedCategory == storedLast.GetOr(DefaultCategory)
      ensures recentCategories == storedRecent.GetOr([])
      ensures quickInputEnabled == storedEnabled
    {
      lastUsedCategory := storedLast.GetOr(DefaultCategory);
      recentCategories := storedRecent.GetOr([]);
      quickInputEnabled := storedEnabled;
    }

    /** `recordCategoryUsage`. */
    method RecordCategoryUsage(categoryName: string)
      modifies this
      ensures lastUsedCategory == categoryName
      ensures recentCategories == Promote(old(recentCategories), categoryName)
      ensures quickInputEnabled == old(quickInputEnabled)
      ensures GetQuickCategory() == categoryName && PreloadCategories()[0] == categoryName
    {
      lastUsedCategory := categoryName;
      var rest := RemoveFirst(recentCategories, categoryName);
      var updated := [categoryName] + rest;
      if |updated| > MaxRecentCategories {
        updated := updated[..MaxRecentCategories];
        assert updated == [categoryName] + rest[..MaxRecentCategories - 1];
      }
      recentCategories := updated;
    }

    function GetQuickCategory(): string
      reads this
    {
      lastUsedCategory
    }

    /** `preloadCategories`: never empty; the recent list once there is one. */
    function PreloadCategories(): (r: seq<string>)
      reads this
      ensures r != []
      ensures recentCategories != [] ==> r == recentCategories
      ensures recentCategories == [] ==> r == PreloadDefaults
    {
      if recentCategories == [] then PreloadDefaults else recentCategories
    }
  }
}
