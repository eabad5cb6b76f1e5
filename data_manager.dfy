/**
 * The phone app's store of memos and categories: list updates, lookups,
 * the two memo searches and the tag list. Loading and saving go through
 * the caller, which passes what was decoded from storage (`None` when
 * nothing could be decoded); `contains` stands for the locale-aware,
 * case-insensitive substring test.
 */
module DataManager {
  import opened Wrappers
  import opened DataModels
  import opened Seqs
  import Sorting
  import StringOrder

  /** The filter value that keeps every category. */
  const AllCategoriesLabel: string := "すべて"

  /** Name, icon, color and default tags of each category installed on first launch, in order. */
  const DefaultCategorySpecs: seq<(string, string, string, seq<string>)> := [
    ("仕事", "briefcase", "#007AFF", ["会議", "タスク", "締切", "アイデア"]),
    ("プライベート", "house", "#34C759", ["買い物", "予定", "思い出", "健康"]),
    ("アイデア", "lightbulb", "#FF9500", ["ビジネス", "創作", "改善", "メモ"]),
    ("人物", "person", "#AF52DE", ["連絡先", "会話", "約束", "関係"]),
    ("その他", "folder", "#8E8E93", ["雑記", "一時", "分類待ち", "保留"])]

  /** The default categories, the `i`-th with identifier `newId(i)` and order `i`. */
  function DefaultCategories(newId: nat -> Uuid): (r: seq<Category>)
    ensures |r| == |DefaultCategorySpecs| == 5
    ensures forall i :: 0 <= i < |r| ==>
      r[i] == NewCategory(newId(i), DefaultCategorySpecs[i].0, DefaultCategorySpecs[i].1,
                          DefaultCategorySpecs[i].2, i, DefaultCategorySpecs[i].3)
    ensures forall i :: 0 <= i < |r| ==> r[i].order == i && r[i].id == newId(i)
  {
    seq(|DefaultCategorySpecs|, i requires 0 <= i < |DefaultCategorySpecs| =>
      NewCategory(newId(i), DefaultCategorySpecs[i].0, DefaultCategorySpecs[i].1,
                  DefaultCategorySpecs[i].2, i, DefaultCategorySpecs[i].3))
  }

  function IdIs(id: Uuid): QuickMemo -> bool { (m: QuickMemo) => m.id == id }
  function IdIsNot(id: Uuid): QuickMemo -> bool { (m: QuickMemo) => m.id != id }
  function NameIs(name: string): Category -> bool { (c: Category) => c.name == name }

  /** The tags of all memos, memo after memo (`flatMap`). */
  function AllTags(memos: seq<QuickMemo>): seq<string>
  {
    if memos == [] then [] else memos[0].tags + AllTags(memos[1..])
  }

  /** A tag is in the flattened list exactly when some memo carries it. */
  lemma {:induction false} AllTagsMembers(memos: seq<QuickMemo>)
    ensures forall t :: t in AllTags(memos) <==> exists i :: 0 <= i < |memos| && t in memos[i].tags
  {
    if memos != [] {
      AllTagsMembers(memos[1..]);
      forall t
        ensures t in AllTags(memos) <==> exists i :: 0 <= i < |memos| && t in memos[i].tags
      {
        if t in AllTags(memos[1..]) {
          var i :| 0 <= i < |memos[1..]| && t in memos[1..][i].tags;
          assert t in memos[i + 1].tags;
        }
        if exists i :: 0 <= i < |memos| && t in memos[i].tags {
          var i :| 0 <= i < |memos| && t in memos[i].tags;
          if i > 0 {
            assert t in memos[1..][i - 1].tags;
          }
        }
      }
    }
  }

  /** The conditions of the single filter steps of the two searches. */
  function InCategory(category: string): QuickMemo -> bool { (m: QuickMemo) => m.primaryCategory == category }
  function ContentHas(text: string, contains: (string, string) -> bool): QuickMemo -> bool
  {
    (m: QuickMemo) => contains(m.content, text)
  }
  function CategoryIn(categories: set<string>): QuickMemo -> bool { (m: QuickMemo) => m.primaryCategory in categories }
  function TagsMatch(tags: set<string>, contains: (string, string) -> bool): QuickMemo -> bool
  {
    (m: QuickMemo) => HasAllTags(m, tags, contains)
  }
  function NotBefore(start: Option<Date>): QuickMemo -> bool
  {
    (m: QuickMemo) => start.Some? ==> m.createdAt >= start.value
  }
  function NotAfter(end: Option<Date>): QuickMemo -> bool
  {
    (m: QuickMemo) => end.Some? ==> m.createdAt <= end.value
  }

  /** The condition `filteredMemos` keeps a memo under. */
  predicate FilterMatch(m: QuickMemo, category: string, searchText: string, contains: (string, string) -> bool)
  {
    (category == AllCategoriesLabel || m.primaryCategory == category)
    && (searchText == [] || contains(m.content, searchText))
  }

  /** Every requested tag occurs within some tag of the memo. */
  predicate HasAllTags(m: QuickMemo, tags: set<string>, contains: (string, string) -> bool)
  {
    forall tag :: tag in tags ==> exists t :: t in m.tags && contains(t, tag)
  }

  /** The condition `searchMemos` keeps a memo under; both date bounds are inclusive. */
  predicate SearchMatch(m: QuickMemo, searchText: string, categories: set<string>, tags: set<string>,
                        startDate: Option<Date>, endDate: Option<Date>, contains: (string, string) -> bool)
  {
    (searchText == [] || contains(m.content, searchText))
    && (categories == {} || m.primaryCategory in categories)
    && HasAllTags(m, tags, contains)
    && (startDate.Some? ==> m.createdAt >= startDate.value)
    && (endDate.Some? ==> m.createdAt <= endDate.value)
  }

  /** The five filter steps of `searchMemos`, each applied only when its criterion is given. */
  function SearchFilters(memos: seq<QuickMemo>, searchText: string, categories: set<string>, tags: set<string>,
                         startDate: Option<Date>, endDate: Option<Date>,
                         contains: (string, string) -> bool): seq<QuickMemo>
  {
    var byText := FilterIf(searchText != [], memos, ContentHas(searchText, contains));
    var byCategory := FilterIf(categories != {}, byText, CategoryIn(categories));
    var byTags := FilterIf(tags != {}, byCategory, TagsMatch(tags, contains));
    var byStart := FilterIf(startDate.Some?, byTags, NotBefore(startDate));
    FilterIf(endDate.Some?, byStart, NotAfter(endDate))
  }

  /** The steps together keep exactly the memos meeting every given criterion, and never add any. */
  lemma SearchFiltersMembers(memos: seq<QuickMemo>, searchText: string, categories: set<string>, tags: set<string>,
                             startDate: Option<Date>, endDate: Option<Date>,
                             contains: (string, string) -> bool)
    ensures |SearchFilters(memos, searchText, categories, tags, startDate, endDate, contains)| <= |memos|
    ensures forall m ::
      (m in SearchFilters(memos, searchText, categories, tags, startDate, endDate, contains)) <==>
      (m in memos && SearchMatch(m, searchText, categories, tags, startDate, endDate, contains))
  {
    var byText := FilterIf(searchText != [], memos, ContentHas(searchText, contains));
    var byCategory := FilterIf(categories != {}, byText, CategoryIn(categories));
    var byTags := FilterIf(tags != {}, byCategory, TagsMatch(tags, contains));
    var byStart := FilterIf(startDate.Some?, byTags, NotBefore(startDate));
    var byEnd := FilterIf(endDate.Some?, byStart, NotAfter(endDate));
    forall m
      ensures m in byEnd <==> m in memos && SearchMatch(m, searchText, categories, tags, startDate, endDate, contains)
    {
      assert m in byText <==> m in memos && (searchText == [] || contains(m.content, searchText));
      assert m in byCategory <==> m in byText && (categories == {} || m.primaryCategory in categories);
      assert m in byTags <==> m in byCategory && HasAllTags(m, tags, contains);
    }
  }

  /** The two filter steps of `filteredMemos`, each applied only when its criterion is given. */
  function CategoryFilters(memos: seq<QuickMemo>, category: string, searchText: string,
                           contains: (string, string) -> bool): seq<QuickMemo>
  {
    var byCategory := FilterIf(category != AllCategoriesLabel, memos, InCategory(category));
    FilterIf(searchText != [], byCategory, ContentHas(searchText, contains))
  }

  /** The two steps keep every occurrence of a matching memo and no occurrence of any other. */
  lemma CategoryFiltersCounts(memos: seq<QuickMemo>, category: string, searchText: string,
                              contains: (string, string) -> bool)
    ensures forall m :: multiset(CategoryFilters(memos, category, searchText, contains))[m] ==
                        if FilterMatch(m, category, searchText, contains) then multiset(memos)[m] else 0
  {
    var byCategory := FilterIf(category != AllCategoriesLabel, memos, InCategory(category));
    forall m
      ensures multiset(CategoryFilters(memos, category, searchText, contains))[m] ==
              if FilterMatch(m, category, searchText, contains) then multiset(memos)[m] else 0
    {
      FilterIfMultiset(category != AllCategoriesLabel, memos, InCategory(category), m);
      FilterIfMultiset(searchText != [], byCategory, ContentHas(searchText, contains), m);
    }
  }

  /** The five steps keep every occurrence of a matching memo and no occurrence of any other. */
  lemma SearchFiltersCounts(memos: seq<QuickMemo>, searchText: string, categories: set<string>, tags: set<string>,
                            startDate: Option<Date>, endDate: Option<Date>,
                            contains: (string, string) -> bool)
    ensures forall m :: multiset(SearchFilters(memos, searchText, categories, tags, startDate, endDate, contains))[m] ==
                        if SearchMatch(m, searchText, categories, tags, startDate, endDate, contains) then multiset(memos)[m] else 0
  {
    forall m
      ensures multiset(SearchFilters(memos, searchText, categories, tags, startDate, endDate, contains))[m] ==
              if SearchMatch(m, searchText, categories, tags, startDate, endDate, contains) then multiset(memos)[m] else 0
    {
      SearchFiltersCount(memos, searchText, categories, tags, startDate, endDate, contains, m);
    }
  }

  /** The count of one memo after the five filters. */
  lemma SearchFiltersCount(memos: seq<QuickMemo>, searchText: string, categories: set<string>, tags: set<string>,
                           startDate: Option<Date>, endDate: Option<Date>,
                           contains: (string, string) -> bool, m: QuickMemo)
    ensures multiset(SearchFilters(memos, searchText, categories, tags, startDate, endDate, contains))[m] ==
            if SearchMatch(m, searchText, categories, tags, startDate, endDate, contains) then multiset(memos)[m] else 0
  {
    var byText := FilterIf(searchText != [], memos, ContentHas(searchText, contains));
    var byCategory := FilterIf(categories != {}, byText, CategoryIn(categories));
    var byTags := FilterIf(tags != {}, byCategory, TagsMatch(tags, contains));
    var byStart := FilterIf(startDate.Some?, byTags, NotBefore(startDate));
    FilterIfMultiset(searchText != [], memos, ContentHas(searchText, contains), m);
    FilterIfMultiset(categories != {}, byText, CategoryIn(categories), m);
    FilterIfMultiset(tags != {}, byCategory, TagsMatch(tags, contains), m);
    FilterIfMultiset(startDate.Some?, byTags, NotBefore(startDate), m);
    FilterIfMultiset(endDate.Some?, byStart, NotAfter(endDate), m);
  }

  class DataManager {
    var memos: seq<QuickMemo>
    var categories: seq<Category>

    /** `init`: load both lists, then install the default categories if there are none. */
    constructor (storedMemos: Option<seq<QuickMemo>>, storedCategories: Option<seq<Category>>, newId: nat -> Uuid)
      ensures memos == storedMemos.GetOr([])
      ensures storedCategories.GetOr([]) != [] ==> categories == storedCategories.value
      ensures storedCategories.GetOr([]) == [] ==> categories == DefaultCategories(newId)
    {
      memos := storedMemos.GetOr([]);
      categories := storedCategories.GetOr([]);
      new;
      InitializeDefaultCategories(newId);
    }

    /** `addMemo`: appends, leaving the earlier memos as they were. */
    method AddMemo(memo: QuickMemo)
      modifies this
      ensures memos == old(memos) + [memo] && categories == old(categories)
    {
      memos := memos + [memo];
    }

    /** `deleteMemo(id:)`: removes every memo with that identifier and keeps the others in order. */
    method DeleteMemo(id: Uuid)
      modifies this
      ensures memos == Filter(old(memos), IdIsNot(id)) && categories == old(categories)
      ensures forall m :: multiset(memos)[m] == if m.id == id then 0 else multiset(old(memos))[m]
    {
      forall m
        ensures multiset(Filter(memos, IdIsNot(id)))[m] == if m.id == id then 0 else multiset(memos)[m]
      {
        FilterMultiset(memos, IdIsNot(id), m);
      }
      memos := Filter(memos, IdIsNot(id));
    }

    /** `updateMemo`: replaces the first memo with the same identifier; no match, no change. */
    method UpdateMemo(memo: QuickMemo)
      modifies this
      ensures memos == ReplaceFirst(old(memos), IdIs(memo.id), memo) && categories == old(categories)
      ensures (forall m :: m in old(memos) ==> m.id != memo.id) ==> memos == old(memos)
    {
      var index := FirstIndex(memos, IdIs(memo.id));
      if index.Some? {
        memos := memos[index.value := memo];
      }
    }

    /** `getCategory(named:)`: the first category with exactly that name. */
    function GetCategory(name: string): (r: Option<Category>)
      reads this
      ensures r.Some? ==> r.value in categories && r.value.name == name
      ensures r.Some? ==> exists i :: 0 <= i < |categories| && categories[i] == r.value
                                      && forall j :: 0 <= j < i ==> categories[j].name != name
      ensures r.None? <==> forall c :: c in categories ==> c.name != name
    {
      FirstWhere(categories, NameIs(name))
    }

    /** `filteredMemos`: the category filter, then the text filter, newest first. */
    function FilteredMemos(category: string, searchText: string, contains: (string, string) -> bool): (r: seq<QuickMemo>)
      reads this
      ensures forall m :: m in r <==> m in memos && FilterMatch(m, category, searchText, contains)
      ensures |r| <= |memos|
      ensures Sorting.SortedBy(r, NewestFirstKey)
      ensures forall m :: multiset(r)[m] == if FilterMatch(m, category, searchText, contains) then multiset(memos)[m] else 0
    {
      var byText := CategoryFilters(memos, category, searchText, contains);
      CategoryFiltersCounts(memos, category, searchText, contains);
      Sorting.SameMembers(byText, Sorting.SortBy(byText, NewestFirstKey));
      Sorting.SortBy(byText, NewestFirstKey)
    }

    /** `searchMemos`: each criterion given narrows the list; the result is newest first. */
    function SearchMemos(searchText: string, categories: set<string>, tags: set<string>,
                         startDate: Option<Date>, endDate: Option<Date>,
                         contains: (string, string) -> bool): (r: seq<QuickMemo>)
      reads this
      ensures forall m :: m in r <==> m in memos && SearchMatch(m, searchText, categories, tags, startDate, endDate, contains)
      ensures |r| <= |memos|
      ensures Sorting.SortedBy(r, NewestFirstKey)
      ensures forall m :: multiset(r)[m] ==
                if SearchMatch(m, searchText, categories, tags, startDate, endDate, contains) then multiset(memos)[m] else 0
    {
      var kept := SearchFilters(memos, searchText, categories, tags, startDate, endDate, contains);
      SearchFiltersMembers(memos, searchText, categories, tags, startDate, endDate, contains);
      SearchFiltersCounts(memos, searchText, categories, tags, startDate, endDate, contains);
      Sorting.SameMembers(kept, Sorting.SortBy(kept, NewestFirstKey));
      Sorting.SortBy(kept, NewestFirstKey)
    }

    /** `getAllTags`: every tag used by some memo, once each, in ascending order. */
    function GetAllTags(): (r: seq<string>)
      reads this
      ensures StringOrder.StrictlySorted(r)
      ensures forall t :: t in r <==> exists i :: 0 <= i < |memos| && t in memos[i].tags
    {
      AllTagsMembers(memos);
      StringOrder.SortedUnique(AllTags(memos))
    }

    /** `initializeDefaultCategories`: only an empty category list is filled. */
    method InitializeDefaultCategories(newId: nat -> Uuid)
      modifies this
      ensures old(categories) == [] ==> categories == DefaultCategories(newId)
      ensures old(categories) != [] ==> categories == old(categories)
      ensures memos == old(memos)
    {
      if categories == [] {
        categories := DefaultCategories(newId);
      }
    }
  }
}
