/**
 * Category management: reordering by drag, picking which selected row to
 * delete, and the add and edit sheets. The data manager's category
 * operations that these screens call (`addCategory`, `updateCategory`,
 * `canDeleteCategory`, `canRenameCategory`, `reorderCategories`) are not
 * defined in the data manager itself; the checks are passed in and the
 * category to add or store is returned.
 */
module CategoryManagement {
  import opened Wrappers
  import opened DataModels
  import opened Seqs
  import Text
  import Sorting
  import DataManager

  // ---------------------------------------------------------------------------
  // Default tags typed as comma-separated text
  // ---------------------------------------------------------------------------

  function TrimAll(parts: seq<string>): (r: seq<string>)
    ensures |r| == |parts| && forall i :: 0 <= i < |r| ==> r[i] == Text.Trim(parts[i])
  {
    if parts == [] then [] else [Text.Trim(parts[0])] + TrimAll(parts[1..])
  }

  function NonEmpty(): string -> bool { (t: string) => t != [] }

  /** What makes a tag: not empty, no surrounding white space, no comma. */
  predicate WellFormedTag(t: string)
  {
    t != [] && Text.Trim(t) == t && ',' !in t
  }

  /** Split at commas, trim each piece, drop the empty ones. */
  function ParseTags(input: string): (tags: seq<string>)
    ensures forall i :: 0 <= i < |tags| ==> WellFormedTag(tags[i])
  {
    var pieces := Text.SplitOn(input, ',');
    var tags := Filter(TrimAll(pieces), NonEmpty());
    forall i | 0 <= i < |tags| ensures WellFormedTag(tags[i]) {
      assert tags[i] in TrimAll(pieces);
      var k :| 0 <= k < |pieces| && tags[i] == Text.Trim(pieces[k]);
      Text.TrimIdempotent(pieces[k], Text.WhitespacesAndNewlines);
      TrimHasNoNewChars(pieces[k], ',');
    }
    tags
  }

  /** Trimming only removes characters. */
  lemma TrimHasNoNewChars(s: string, c: char)
    requires c !in s
    ensures c !in Text.Trim(s)
  {
    var n := Text.LeadingCount(s, Text.WhitespacesAndNewlines);
    var t := s[n..];
    assert forall i :: 0 <= i < |t| ==> t[i] == s[n + i];
  }

  /** `joined(separator: ", ")` written as a join on commas of space-led pieces. */
  function Spaced(tags: seq<string>): (r: seq<string>)
    requires tags != []
    ensures |r| == |tags| && r[0] == tags[0]
    ensures forall i :: 1 <= i < |r| ==> r[i] == " " + tags[i]
  {
    [tags[0]] + seq(|tags| - 1, i requires 0 <= i < |tags| - 1 => " " + tags[i + 1])
  }

  lemma {:induction false} JoinSpaced(tags: seq<string>)
    requires tags != []
    ensures Text.Join(tags, ", ") == Text.Join(Spaced(tags), ",")
    decreases |tags|
  {
    if |tags| > 1 {
      JoinSpaced(tags[1..]);
      var rest := Spaced(tags[1..]);
      var sp := Spaced(tags);
      var x := Text.Join(rest, ",");
      assert Text.Join(tags, ", ") == tags[0] + ", " + x;
      assert sp[1..] == [" " + rest[0]] + rest[1..];
      JoinHead(rest, " ");
      assert Text.Join(sp, ",") == tags[0] + "," + (" " + x);
      assert tags[0] + ", " + x == tags[0] + "," + (" " + x);
    }
  }

  /** Putting text before the first piece puts it before the join. */
  lemma JoinHead(parts: seq<string>, pre: string)
    requires parts != []
    ensures Text.Join([pre + parts[0]] + parts[1..], ",") == pre + Text.Join(parts, ",")
  {
    var q := [pre + parts[0]] + parts[1..];
    if |parts| > 1 {
      assert q[1..] == parts[1..];
    }
  }

  /** A space before a trimmed word is trimmed away. */
  lemma TrimLeadingSpace(t: string)
    requires t != [] && Text.Trim(t) == t
    ensures Text.Trim(" " + t) == t
  {
    Text.TrimBySpec(t, Text.WhitespacesAndNewlines);
    var s := " " + t;
    assert s[1..] == t;
    assert Text.LeadingCount(t, Text.WhitespacesAndNewlines) == 0;
    assert Text.LeadingCount(s, Text.WhitespacesAndNewlines) == 1;
    assert Text.TrailingCount(t, Text.WhitespacesAndNewlines) == 0;
  }

  /** Splitting the shown text at commas gives the space-led pieces. */
  lemma SplitSpaced(tags: seq<string>)
    requires tags != [] && forall i :: 0 <= i < |tags| ==> WellFormedTag(tags[i])
    ensures Text.SplitOn(Text.Join(tags, ", "), ',') == Spaced(tags)
  {
    var sp := Spaced(tags);
    JoinSpaced(tags);
    forall k | 0 <= k < |sp| ensures ',' !in sp[k] {
      if k > 0 { assert sp[k] == " " + tags[k]; }
    }
    Text.SplitJoin(sp, ',');
  }

  /** Trimming the space-led pieces gives the tags. */
  lemma TrimSpaced(tags: seq<string>)
    requires tags != [] && forall i :: 0 <= i < |tags| ==> WellFormedTag(tags[i])
    ensures TrimAll(Spaced(tags)) == tags
  {
    var sp := Spaced(tags);
    forall i | 0 <= i < |sp| ensures Text.Trim(sp[i]) == tags[i] {
      if i > 0 { TrimLeadingSpace(tags[i]); }
    }
  }

  /**
   * The edit sheet shows the tags joined by `, `; saving that text
   * unchanged gives back the same tags.
   */
  lemma ParseTagsJoined(tags: seq<string>)
    requires forall i :: 0 <= i < |tags| ==> WellFormedTag(tags[i])
    ensures ParseTags(Text.Join(tags, ", ")) == tags
  {
    if tags == [] {
      assert Text.SplitOn("", ',') == [""];
      assert TrimAll([""]) == [Text.Trim("")];
    } else {
      SplitSpaced(tags);
      TrimSpaced(tags);
      FilterAllPass(tags, NonEmpty());
    }
  }

  // ---------------------------------------------------------------------------
  // AddCategoryView.addCategory and EditCategoryView.saveCategory
  // ---------------------------------------------------------------------------

  /** `(orders.max() ?? -1) + 1`: one past the largest order, 0 for no categories. */
  function NextOrder(categories: seq<Category>): (r: int)
    ensures forall c :: c in categories ==> c.order < r
    ensures categories == [] ==> r == 0
    ensures categories != [] ==> exists c :: c in categories && c.order == r - 1
  {
    if categories == [] then 0
    else
      var rest := NextOrder(categories[1..]);
      if categories[1..] == [] || categories[0].order + 1 >= rest then categories[0].order + 1 else rest
  }

  const DuplicateNameMessage: string := "同じ名前のカテゴリーが既に存在します"
  const FixedNameMessage: string := "「その他」カテゴリーの名前は変更できません"

  /**
   * `addCategory`: a trimmed name already in use is refused; otherwise a new
   * category with the parsed default tags and the next order.
   */
  function AddCategory(categories: seq<Category>, nameInput: string, icon: string, color: string,
                       tagsInput: string, freshId: Uuid): (r: Result<Category, string>)
    ensures r.Err? <==> exists c :: c in categories && c.name == Text.Trim(nameInput)
    ensures r.Err? ==> r.error == DuplicateNameMessage
    ensures r.Ok? ==> r.value.name == Text.Trim(nameInput) && r.value.id == freshId
                      && r.value.icon == icon && r.value.color == color
                      && r.value.defaultTags == ParseTags(tagsInput)
                      && forall c :: c in categories ==> c.order < r.value.order && c.name != r.value.name
  {
    var trimmedName := Text.Trim(nameInput);
    if FirstWhere(categories, DataManager.NameIs(trimmedName)).Some? then Err(DuplicateNameMessage)
    else Ok(NewCategory(freshId, trimmedName, icon, color, NextOrder(categories), ParseTags(tagsInput)))
  }

  /**
   * `saveCategory`: a changed name must be allowed by `canRename`; the
   * catch-all category keeps its name whatever was typed; identity and
   * order are kept.
   */
  function SaveCategory(category: Category, nameInput: string, icon: string, color: string, tagsInput: string,
                        canRename: (string, string) -> bool): (r: Result<Category, string>)
    ensures r.Err? <==> category.name != Text.Trim(nameInput) && !canRename(category.name, Text.Trim(nameInput))
    ensures r.Err? ==> r.error == (if category.name == OtherCategory then FixedNameMessage else DuplicateNameMessage)
    ensures r.Ok? && category.name == OtherCategory ==> r.value.name == OtherCategory
    ensures r.Ok? && category.name != OtherCategory ==> r.value.name == Text.Trim(nameInput)
    ensures r.Ok? ==> r.value.id == category.id && r.value.order == category.order
                      && r.value.icon == icon && r.value.color == color && r.value.defaultTags == ParseTags(tagsInput)
  {
    var trimmedName := Text.Trim(nameInput);
    if category.name != trimmedName && !canRename(category.name, trimmedName) then
      Err(if category.name == OtherCategory then FixedNameMessage else DuplicateNameMessage)
    else
      var named := if category.name != OtherCategory then category.(name := trimmedName) else category;
      Ok(named.(icon := icon, color := color, defaultTags := ParseTags(tagsInput)))
  }

  // ---------------------------------------------------------------------------
  // moveCategories
  // ---------------------------------------------------------------------------

  /** The elements at the given offsets, `lo` being the offset of `s[0]`. */
  function Picked<T>(s: seq<T>, offsets: set<nat>, lo: nat): seq<T>
  {
    if s == [] then [] else (if lo in offsets then [s[0]] else []) + Picked(s[1..], offsets, lo + 1)
  }

  /** The elements at the other offsets. */
  function Kept<T>(s: seq<T>, offsets: set<nat>, lo: nat): seq<T>
  {
    if s == [] then [] else (if lo in offsets then [] else [s[0]]) + Kept(s[1..], offsets, lo + 1)
  }

  /** Every element is either picked or kept, once. */
  lemma {:induction false} PickedKept<T>(s: seq<T>, offsets: set<nat>, lo: nat)
    ensures multiset(Picked(s, offsets, lo)) + multiset(Kept(s, offsets, lo)) == multiset(s)
    decreases |s|
  {
    if s != [] {
      PickedKept(s[1..], offsets, lo + 1);
      assert s == [s[0]] + s[1..];
    }
  }

  /** Two splits of two halves, put back together in another grouping, hold the same elements. */
  lemma Regroup<T>(kb: seq<T>, pb: seq<T>, pa: seq<T>, ka: seq<T>, before: seq<T>, after: seq<T>)
    requires multiset(pb) + multiset(kb) == multiset(before)
    requires multiset(pa) + multiset(ka) == multiset(after)
    ensures multiset(kb + pb + pa + ka) == multiset(before + after)
    ensures |kb + pb + pa + ka| == |before + after|
  {
    assert multiset(kb + pb + pa + ka) == multiset(kb) + multiset(pb) + multiset(pa) + multiset(ka);
    assert |kb + pb + pa + ka| == |multiset(kb + pb + pa + ka)|;
    assert |before + after| == |multiset(before + after)|;
  }

  /**
   * `move(fromOffsets:toOffset:)`: the elements at the offsets, in their
   * order, are put where `destination` was; the others keep their order
   * around them.
   */
  function MoveOffsets<T>(s: seq<T>, offsets: set<nat>, destination: nat): (r: seq<T>)
    requires destination <= |s|
    ensures |r| == |s| && multiset(r) == multiset(s)
  {
    assert s == s[..destination] + s[destination..];
    MovePermutes(s[..destination], s[destination..], offsets);
    Kept(s[..destination], offsets, 0) + Picked(s[..destination], offsets, 0)
      + Picked(s[destination..], offsets, destination) + Kept(s[destination..], offsets, destination)
  }

  lemma MovePermutes<T>(before: seq<T>, after: seq<T>, offsets: set<nat>)
    ensures var r := Kept(before, offsets, 0) + Picked(before, offsets, 0)
                     + Picked(after, offsets, |before|) + Kept(after, offsets, |before|);
            |r| == |before + after| && multiset(r) == multiset(before + after)
  {
    PickedKept(before, offsets, 0);
    PickedKept(after, offsets, |before|);
    Regroup(Kept(before, offsets, 0), Picked(before, offsets, 0), Picked(after, offsets, |before|), Kept(after, offsets, |before|), before, after);
  }

  function CategoryIdIs(id: Uuid): Category -> bool { (c: Category) => c.id == id }

  /** Gives the first category with the identifier the order, as the loop body does. */
  function SetOrderOfFirst(categories: seq<Category>, id: Uuid, order: int): (r: seq<Category>)
    ensures |r| == |categories|
  {
    match FirstIndex(categories, CategoryIdIs(id))
    case None => categories
    case Some(k) => categories[k := categories[k].(order := order)]
  }

  /** The effect of the loop's first `n` rounds: the `i`-th listed category's order becomes `i`. */
  function AssignOrders(categories: seq<Category>, listed: seq<Category>, n: nat): (r: seq<Category>)
    requires n <= |listed|
    ensures |r| == |categories|
  {
    if n == 0 then categories else SetOrderOfFirst(AssignOrders(categories, listed, n - 1), listed[n - 1].id, n - 1)
  }

  predicate UniqueIds(s: seq<Category>)
  {
    forall j, k :: 0 <= j < k < |s| ==> s[j].id != s[k].id
  }

  /**
   * With distinct identifiers, after `n` rounds a category listed among the
   * first `n` has its position as its order, any other its old order, and
   * nothing but orders changes.
   */
  lemma {:induction false} AssignOrdersSpec(categories: seq<Category>, listed: seq<Category>, n: nat)
    requires n <= |listed| && UniqueIds(categories) && UniqueIds(listed)
    ensures var r := AssignOrders(categories, listed, n);
            forall j :: 0 <= j < |r| ==>
              r[j] == categories[j].(order := r[j].order)
              && (forall i :: 0 <= i < n && listed[i].id == categories[j].id ==> r[j].order == i)
              && ((forall i :: 0 <= i < n ==> listed[i].id != categories[j].id) ==> r[j].order == categories[j].order)
  {
    if n > 0 {
      AssignOrdersSpec(categories, listed, n - 1);
      var prev := AssignOrders(categories, listed, n - 1);
      assert UniqueIds(prev) by {
        forall j, k | 0 <= j < k < |prev| ensures prev[j].id != prev[k].id {
          assert prev[j].id == categories[j].id && prev[k].id == categories[k].id;
        }
      }
      SetOrderOfFirstSpec(prev, listed[n - 1].id, n - 1);
    }
  }

  /** Only the category with that identifier, if any, changes, and only its order. */
  lemma SetOrderOfFirstSpec(categories: seq<Category>, id: Uuid, order: int)
    requires UniqueIds(categories)
    ensures var r := SetOrderOfFirst(categories, id, order);
            forall j :: 0 <= j < |r| ==>
              (categories[j].id == id ==> r[j] == categories[j].(order := order))
              && (categories[j].id != id ==> r[j] == categories[j])
  {
  }

  /**
   * After a move, when identifiers are distinct, every category's order is
   * its position in the reordered list.
   */
  lemma MovedOrdersArePositions(categories: seq<Category>, reordered: seq<Category>)
    requires UniqueIds(categories) && UniqueIds(reordered)
    ensures var r := AssignOrders(categories, reordered, |reordered|);
            forall j, i :: 0 <= j < |r| && 0 <= i < |reordered| && reordered[i].id == categories[j].id ==> r[j].order == i
  {
    AssignOrdersSpec(categories, reordered, |reordered|);
  }

  /** The first offset, in ascending order, whose category may be deleted. */
  function FirstDeletable(sorted: seq<Category>, offsets: set<nat>, canDelete: Category -> bool, from: nat): (r: Option<nat>)
    requires from <= |sorted|
    ensures r.Some? ==> from <= r.value < |sorted| && r.value in offsets && canDelete(sorted[r.value])
    ensures r.Some? ==> forall i :: from <= i < r.value && i in offsets ==> !canDelete(sorted[i])
    ensures r.None? ==> forall i :: from <= i < |sorted| && i in offsets ==> !canDelete(sorted[i])
    decreases |sorted| - from
  {
    if from == |sorted| then None
    else if from in offsets && canDelete(sorted[from]) then Some(from)
    else FirstDeletable(sorted, offsets, canDelete, from + 1)
  }

  class CategoryManagementView {
    var categoryToDelete: Option<Category>
    var showingDeleteAlert: bool

    constructor ()
      ensures categoryToDelete.None? && !showingDeleteAlert
    {
      categoryToDelete := None;
      showingDeleteAlert := false;
    }

    /**
     * `moveCategories`: the categories sorted by order are moved as dragged,
     * then each category's order is set to its new position.
     */
    method MoveCategories(dm: DataManager.DataManager, source: set<nat>, destination: nat)
      requires destination <= |dm.categories|
      modifies dm
      ensures dm.categories == AssignOrders(old(dm.categories), MoveOffsets(Sorting.SortBy(old(dm.categories), OrderKey), source, destination),
                                            |old(dm.categories)|)
      ensures dm.memos == old(dm.memos)
    {
      var sorted := Sorting.SortBy(dm.categories, OrderKey);
      var reordered := MoveOffsets(sorted, source, destination);
      WriteOrders(dm, reordered);
    }

    /** The loop of `moveCategories`: each listed category's order becomes its position. */
    method WriteOrders(dm: DataManager.DataManager, reordered: seq<Category>)
      modifies dm
      ensures dm.categories == AssignOrders(old(dm.categories), reordered, |reordered|)
      ensures dm.memos == old(dm.memos)
    {
      var index := 0;
      while index < |reordered|
        invariant 0 <= index <= |reordered|
        invariant dm.categories == AssignOrders(old(dm.categories), reordered, index)
        invariant dm.memos == old(dm.memos)
      {
        ghost var prev := dm.categories;
        var dataIndex := FirstIndex(dm.categories, CategoryIdIs(reordered[index].id));
        if dataIndex.Some? {
          dm.categories := dm.categories[dataIndex.value := dm.categories[dataIndex.value].(order := index)];
        }
        assert dm.categories == SetOrderOfFirst(prev, reordered[index].id, index);
        index := index + 1;
      }
    }

    /**
     * `deleteCategories`: the first deletable category among the swiped rows
     * is the one offered for deletion; when none is, nothing changes.
     */
    method DeleteCategories(dm: DataManager.DataManager, offsets: set<nat>, canDelete: Category -> bool)
      requires forall i :: i in offsets ==> i < |dm.categories|
      modifies this
      ensures var sorted := Sorting.SortBy(dm.categories, OrderKey);
              var first := FirstDeletable(sorted, offsets, canDelete, 0);
              (first.Some? ==> categoryToDelete == Some(sorted[first.value]) && showingDeleteAlert)
              && (first.None? ==> categoryToDelete == old(categoryToDelete) && showingDeleteAlert == old(showingDeleteAlert))
    {
      var sorted := Sorting.SortBy(dm.categories, OrderKey);
      var index := 0;
      while index < |sorted|
        invariant 0 <= index <= |sorted|
        invariant FirstDeletable(sorted, offsets, canDelete, 0) == FirstDeletable(sorted, offsets, canDelete, index)
        invariant categoryToDelete == old(categoryToDelete) && showingDeleteAlert == old(showingDeleteAlert)
      {
        if index in offsets && canDelete(sorted[index]) {
          categoryToDelete := Some(sorted[index]);
          showingDeleteAlert := true;
          return;
        }
        index := index + 1;
      }
    }
  }
}
