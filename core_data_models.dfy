/**
 * The second Core Data mapping, in which every attribute is optional and
 * the record has no title or duration. Converting back fills in defaults;
 * a memo's title and duration are not stored, so they come back as the
 * empty title and the default duration.
 */
module CoreDataModels {
  import opened Wrappers
  import opened DataModels

  const Int32Min: int := -0x8000_0000
  const Int32Max: int := 0x7FFF_FFFF

  class QuickMemoEntity {
    var id: Option<Uuid>
    var content: Option<string>
    var primaryCategory: Option<string>
    var tags: Option<seq<string>>
    var createdAt: Option<Date>
    var updatedAt: Option<Date>
    var calendarEventId: Option<string>

    /**
     * `toQuickMemo()`: missing content is empty, a missing category is
     * "その他", missing tags are none and missing dates are `now`.
     */
    function ToQuickMemo(freshId: Uuid, now: Date): (m: QuickMemo)
      reads this
      ensures m.id == id.GetOr(freshId) && m.content == content.GetOr("")
      ensures m.primaryCategory == primaryCategory.GetOr(OtherCategory) && m.tags == tags.GetOr([])
      ensures m.createdAt == createdAt.GetOr(now) && m.updatedAt == updatedAt.GetOr(now)
      ensures m.calendarEventId == calendarEventId
      ensures m.title == "" && m.durationMinutes == DefaultDurationMinutes
    {
      QuickMemo(id.GetOr(freshId), "", content.GetOr(""), primaryCategory.GetOr(OtherCategory),
                tags.GetOr([]), createdAt.GetOr(now), updatedAt.GetOr(now), calendarEventId,
                DefaultDurationMinutes)
    }

    /** `update(from:)`: every stored attribute is set; title and duration are dropped. */
    method Update(m: QuickMemo)
      modifies this
      ensures id == Some(m.id) && content == Some(m.content) && tags == Some(m.tags)
      ensures forall f: Uuid, n: Date ::
        ToQuickMemo(f, n) == m.(title := "", durationMinutes := DefaultDurationMinutes)
    {
      id := Some(m.id);
      content := Some(m.content);
      primaryCategory := Some(m.primaryCategory);
      tags := Some(m.tags);
      createdAt := Some(m.createdAt);
      updatedAt := Some(m.updatedAt);
      calendarEventId := m.calendarEventId;
    }
  }

  class CategoryEntity {
    var id: Option<Uuid>
    var name: Option<string>
    var icon: Option<string>
    var color: Option<string>
    var order: int
    var defaultTags: Option<seq<string>>

    ghost predicate Valid()
      reads this
    {
      Int32Min <= order <= Int32Max
    }

    /**
     * `toCategory()`: a missing name is empty, a missing icon "folder", a
     * missing color "#8E8E93" and missing tags none.
     */
    function ToCategory(freshId: Uuid): (c: Category)
      reads this
      ensures c.id == id.GetOr(freshId) && c.name == name.GetOr("") && c.icon == icon.GetOr("folder")
      ensures c.color == color.GetOr("#8E8E93") && c.order == order && c.defaultTags == defaultTags.GetOr([])
    {
      Category(id.GetOr(freshId), name.GetOr(""), icon.GetOr("folder"), color.GetOr("#8E8E93"), order,
               defaultTags.GetOr([]))
    }

    /** `update(from:)`; the order must fit in 32 bits. */
    method Update(c: Category)
      requires Int32Min <= c.order <= Int32Max
      modifies this
      ensures Valid()
      ensures forall f: Uuid :: ToCategory(f) == c
    {
      id := Some(c.id);
      name := Some(c.name);
      icon := Some(c.icon);
      color := Some(c.color);
      order := c.order;
      defaultTags := Some(c.defaultTags);
    }
  }
}
