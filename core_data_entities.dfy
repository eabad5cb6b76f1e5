/**
 * The Core Data records that persist memos and categories (the variant with
 * a title and a duration). A stored record may hold nil where the value
 * type has a value; converting back fills in defaults. Tags are stored as a
 * generic object that is cast back to a string array.
 */
module CoreDataEntities {
  import opened Wrappers
  import opened DataModels

  const Int32Min: int := -0x8000_0000
  const Int32Max: int := 0x7FFF_FFFF

  /** What an `NSObject?` tag attribute holds. */
  datatype TagObject = NoObject | StringArray(strings: seq<string>) | OtherObject

  /** `tags as? [String] ?? []`. */
  function CastTags(t: TagObject): (r: seq<string>)
    ensures t.StringArray? ==> r == t.strings
    ensures !t.StringArray? ==> r == []
  {
    if t.StringArray? then t.strings else []
  }

  /** How a tag list is stored: nil when empty. */
  function StoreTags(tags: seq<string>): (r: TagObject)
    ensures CastTags(r) == tags
    ensures r == NoObject <==> tags == []
  {
    if tags == [] then NoObject else StringArray(tags)
  }

  class QuickMemoEntity {
    var id: Option<Uuid>
    var title: Option<string>
    var content: string
    var primaryCategory: string
    var tags: TagObject
    var createdAt: Option<Date>
    var updatedAt: Option<Date>
    var durationMinutes: int
    var calendarEventId: Option<string>

    /** The duration attribute is a 32-bit integer. */
    ghost predicate Valid()
      reads this
    {
      Int32Min <= durationMinutes <= Int32Max
    }

    /** The record holds exactly what `Update(m)` writes for `m`. */
    ghost predicate Stores(m: QuickMemo)
      reads this
    {
      id == Some(m.id) && title == (if m.title == "" then None else Some(m.title))
      && content == m.content && primaryCategory == m.primaryCategory && tags == StoreTags(m.tags)
      && createdAt == Some(m.createdAt) && updatedAt == Some(m.updatedAt)
      && durationMinutes == m.durationMinutes && calendarEventId == m.calendarEventId
    }

    /**
     * `toQuickMemo()`: a missing identifier becomes `freshId`, a missing
     * title the empty string, missing dates `now`, and tags that are not a
     * string array the empty list.
     */
    function ToQuickMemo(freshId: Uuid, now: Date): (m: QuickMemo)
      reads this
      ensures m.id == id.GetOr(freshId) && m.title == title.GetOr("")
      ensures m.createdAt == createdAt.GetOr(now) && m.updatedAt == updatedAt.GetOr(now)
      ensures m.tags == CastTags(tags) && m.durationMinutes == durationMinutes
      ensures m.content == content && m.primaryCategory == primaryCategory
      ensures m.calendarEventId == calendarEventId
    {
      QuickMemo(id.GetOr(freshId), title.GetOr(""), content, primaryCategory, CastTags(tags),
                createdAt.GetOr(now), updatedAt.GetOr(now), calendarEventId, durationMinutes)
    }

    /**
     * `update(from:)`. Converting the duration to `Int32` traps when it
     * does not fit, so the caller must pass one that fits.
     */
    method Update(m: QuickMemo)
      requires Int32Min <= m.durationMinutes <= Int32Max
      modifies this
      ensures Valid() && Stores(m)
      ensures forall f: Uuid, n: Date :: ToQuickMemo(f, n) == m
    {
      id := Some(m.id);
      title := if m.title == "" then None else Some(m.title);
      content := m.content;
      primaryCategory := m.primaryCategory;
      tags := StoreTags(m.tags);
      createdAt := Some(m.createdAt);
      updatedAt := Some(m.updatedAt);
      durationMinutes := m.durationMinutes;
      calendarEventId := m.calendarEventId;
    }
  }

  class CategoryEntity {
    var id: Option<Uuid>
    var name: string
    var icon: string
    var color: string
    var order: int
    var defaultTags: TagObject

    ghost predicate Valid()
      reads this
    {
      Int32Min <= order <= Int32Max
    }

    /** `toCategory()`: a missing identifier becomes `freshId`; tags are cast back. */
    function ToCategory(freshId: Uuid): (c: Category)
      reads this
      ensures c.id == id.GetOr(freshId) && c.defaultTags == CastTags(defaultTags)
      ensures c.name == name && c.icon == icon && c.color == color && c.order == order
    {
      Category(id.GetOr(freshId), name, icon, color, order, CastTags(defaultTags))
    }

    /** `update(from:)`; the order must fit in 32 bits. */
    method Update(c: Category)
      requires Int32Min <= c.order <= Int32Max
      modifies this
      ensures Valid() && defaultTags == StoreTags(c.defaultTags)
      ensures forall f: Uuid :: ToCategory(f) == c
    {
      id := Some(c.id);
      name := c.name;
      icon := c.icon;
      color := c.color;
      order := c.order;
      defaultTags := StoreTags(c.defaultTags);
    }
  }
}
