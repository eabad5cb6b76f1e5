/**
 * The watch app's own light-weight copy of the memo store: memos carry one
 * category name, categories have no order or tags, and the phone can
 * replace both lists at once. Loading from storage is the caller's
 * business: it passes what could be decoded, `None` when nothing could.
 */
module WatchModels {
  import opened Wrappers
  import opened DataModels
  import opened Seqs

  /** `WatchMemo`. */
  datatype WatchMemo = WatchMemo(id: Uuid, title: string, content: string, category: string, createdAt: Date)

  /** `WatchCategory`. */
  datatype WatchCategory = WatchCategory(id: Uuid, name: string, icon: string, color: string)

  /** Name, icon and color of the categories the watch installs on first launch, in order. */
  const WatchDefaultSpecs: seq<(string, string, string)> := [
    ("仕事", "briefcase", "#007AFF"),
    ("プライベート", "house", "#34C759"),
    ("アイデア", "lightbulb", "#FF9500"),
    ("その他", "folder", "#8E8E93")]

  /** The default watch categories, the `i`-th with identifier `newId(i)`. */
  function WatchDefaults(newId: nat -> Uuid): (r: seq<WatchCategory>)
    ensures |r| == |WatchDefaultSpecs| == 4
    ensures forall i :: 0 <= i < |r| ==>
      r[i] == WatchCategory(newId(i), WatchDefaultSpecs[i].0, WatchDefaultSpecs[i].1, WatchDefaultSpecs[i].2)
  {
    seq(|WatchDefaultSpecs|, i requires 0 <= i < |WatchDefaultSpecs| =>
      WatchCategory(newId(i), WatchDefaultSpecs[i].0, WatchDefaultSpecs[i].1, WatchDefaultSpecs[i].2))
  }

  function WatchIdIsNot(id: Uuid): WatchMemo -> bool { (m: WatchMemo) => m.id != id }
  function WatchNameIs(name: string): WatchCategory -> bool { (c: WatchCategory) => c.name == name }

  class WatchDataManager {
    var memos: seq<WatchMemo>
    var categories: seq<WatchCategory>

    /** `init`: load both lists, then install the defaults when there is no category. */
    constructor (storedMemos: Option<seq<WatchMemo>>, storedCategories: Option<seq<WatchCategory>>, newId: nat -> Uuid)
      ensures memos == storedMemos.GetOr([])
      ensures storedCategories.GetOr([]) != [] ==> categories == storedCategories.value
      ensures storedCategories.GetOr([]) == [] ==> categories == WatchDefaults(newId)
    {
      memos := storedMemos.GetOr([]);
      categories := storedCategories.GetOr([]);
      new;
      InitializeDefaultCategories(newId);
    }

    /** `addMemo`: exactly one memo more, at the end. */
    method AddMemo(memo: WatchMemo)
      modifies this
      ensures memos == old(memos) + [memo] && categories == old(categories)
      ensures |memos| == |old(memos)| + 1
    {
      memos := memos + [memo];
    }

    /**
     * `deleteMemo(id:)`: every copy of a memo with that identifier goes,
     * every other memo keeps all its copies and its place in the order.
     */
    method DeleteMemo(id: Uuid)
      modifies this
      ensures memos == Filter(old(memos), WatchIdIsNot(id)) && categories == old(categories)
      ensures forall m :: multiset(memos)[m] == if m.id == id then 0 else multiset(old(memos))[m]
    {
      forall m
        ensures multiset(Filter(memos, WatchIdIsNot(id)))[m] == if m.id == id then 0 else multiset(memos)[m]
      {
        FilterMultiset(memos, WatchIdIsNot(id), m);
      }
      memos := Filter(memos, WatchIdIsNot(id));
    }

    /** `updateFromPhone`: both lists are replaced by what the phone sent. */
    method UpdateFromPhone(newMemos: seq<WatchMemo>, newCategories: seq<WatchCategory>)
      modifies this
      ensures memos == newMemos && categories == newCategories
    {
      memos := newMemos;
      categories := newCategories;
    }

    /** `initializeDefaultCategories`: only an empty category list is filled. */
    method InitializeDefaultCategories(newId: nat -> Uuid)
      modifies this
      ensures old(categories) == [] ==> categories == WatchDefaults(newId)
      ensures old(categories) != [] ==> categories == old(categories)
      ensures memos == old(memos)
    {
      if categories == [] {
        categories := WatchDefaults(newId);
      }
    }

    /** `getCategory(named:)`: the first category with exactly that name, if any. */
    function GetCategory(name: string): (r: Option<WatchCategory>)
      reads this
      ensures r.Some? ==> r.value in categories && r.value.name == name
      ensures r.Some? ==> exists i :: 0 <= i < |categories| && categories[i] == r.value
                                      && forall j :: 0 <= j < i ==> categories[j].name != name
      ensures r.None? <==> forall c :: c in categories ==> c.name != name
    {
      FirstWhere(categories, WatchNameIs(name))
    }
  }
}
