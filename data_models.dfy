/**
 * The app's two value types: a memo and a category. Identifiers are opaque
 * and dates are whole seconds; generating a fresh identifier or reading the
 * clock is done by the caller, which passes the result in.
 */
module DataModels {
  import opened Wrappers

  /** A `UUID`, compared only for equality. */
  type Uuid = nat

  /** A `Date`, as a count of seconds. */
  type Date = int

  /** The duration a memo gets when none was recorded. */
  const DefaultDurationMinutes: int := 30

  /** The category a memo falls back to. */
  const OtherCategory: string := "その他"

  datatype QuickMemo = QuickMemo(
    id: Uuid,
    title: string,
    content: string,
    primaryCategory: string,
    tags: seq<string>,
    createdAt: Date,
    updatedAt: Date,
    calendarEventId: Option<string>,
    durationMinutes: int)

  datatype Category = Category(
    id: Uuid,
    name: string,
    icon: string,
    color: string,
    order: int,
    defaultTags: seq<string>)

  /**
   * The convenience initialiser: a fresh identifier, both timestamps set to
   * the same "now", and no calendar event.
   */
  function NewMemo(freshId: Uuid, now: Date, title: string, content: string, primaryCategory: string,
                   tags: seq<string>, durationMinutes: int): (m: QuickMemo)
    ensures m.id == freshId && m.createdAt == now && m.updatedAt == now && m.calendarEventId == None
    ensures m.title == title && m.content == content && m.primaryCategory == primaryCategory
    ensures m.tags == tags && m.durationMinutes == durationMinutes
  {
    QuickMemo(freshId, title, content, primaryCategory, tags, now, now, None, durationMinutes)
  }

  /** The convenience initialiser of a category: a fresh identifier. */
  function NewCategory(freshId: Uuid, name: string, icon: string, color: string, order: int,
                       defaultTags: seq<string>): (c: Category)
    ensures c.id == freshId && c.name == name && c.icon == icon && c.color == color
    ensures c.order == order && c.defaultTags == defaultTags
  {
    Category(freshId, name, icon, color, order, defaultTags)
  }

  function OrderKey(c: Category): int { c.order }

  /** Newest first: the key of a memo when sorting by `createdAt` descending. */
  function NewestFirstKey(m: QuickMemo): int { -m.createdAt }

  /** The names of the categories, in order. */
  function NamesOf(cats: seq<Category>): (names: seq<string>)
    ensures |names| == |cats| && forall i :: 0 <= i < |cats| ==> names[i] == cats[i].name
  {
    if cats == [] then [] else [cats[0].name] + NamesOf(cats[1..])
  }
}
