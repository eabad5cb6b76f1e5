/**
 * The quick-entry sheet: the duration chip labels, the tag selection with
 * its free-plan limit, the default tags a category brings, adding a new
 * tag, and saving the memo. Localized labels are passed in; the calendar
 * event created after saving is not modelled.
 */
module FastInput {
  import opened Wrappers
  import opened DataModels
  import opened Seqs
  import Text
  import DataManager
  import PurchaseManager
  import QuickInput

  // ---------------------------------------------------------------------------
  // DurationChip.durationText
  // ---------------------------------------------------------------------------

  /** How a duration is shown: minutes alone, whole hours, or hours and minutes. */
  datatype DurationParts = MinutesOnly(minutes: int) | HoursOnly(hours: nat) | HoursAndMinutes(hours: nat, minutes: int)

  function Total(p: DurationParts): int
  {
    match p
    case MinutesOnly(m) => m
    case HoursOnly(h) => h * 60
    case HoursAndMinutes(h, m) => h * 60 + m
  }

  /**
   * Under an hour is shown in minutes; from an hour on, whole hours and the
   * remaining minutes, the minutes left out when there are none. The parts
   * always add back up to the duration.
   */
  function SplitDuration(d: int): (p: DurationParts)
    ensures Total(p) == d
    ensures p.MinutesOnly? <==> d < 60
    ensures p.HoursOnly? ==> p.hours >= 1
    ensures p.HoursAndMinutes? ==> p.hours >= 1 && 0 < p.minutes < 60
  {
    if d < 60 then MinutesOnly(d)
    else if d % 60 == 0 then HoursOnly(d / 60)
    else HoursAndMinutes(d / 60, d % 60)
  }

  /** The chip's label, with the localized unit words. */
  function DurationText(d: int, minutesLabel: string, hoursLabel: string): (r: string)
    ensures d < 60 ==> r == Text.IntToDecimal(d) + minutesLabel
    ensures d >= 60 && d % 60 == 0 ==> r == Text.NatToDecimal(d / 60) + hoursLabel
    ensures d >= 60 && d % 60 != 0 ==>
              r == Text.NatToDecimal(d / 60) + hoursLabel + Text.NatToDecimal(d % 60) + minutesLabel
  {
    match SplitDuration(d)
    case MinutesOnly(m) => Text.IntToDecimal(m) + minutesLabel
    case HoursOnly(h) => Text.NatToDecimal(h) + hoursLabel
    case HoursAndMinutes(h, m) => Text.NatToDecimal(h) + hoursLabel + Text.NatToDecimal(m) + minutesLabel
  }

  // ---------------------------------------------------------------------------
  // The tag limit
  // ---------------------------------------------------------------------------

  /** Whether one more tag would go over a free user's limit. */
  predicate AtTagLimit(tags: set<string>, pm: PurchaseManager.PurchaseManager)
    reads pm
  {
    |tags| >= pm.GetMaxTagsPerMemo() && !pm.isProVersion
  }

  class FastInput {
    var selectedCategory: string
    var memoTitle: string
    var memoText: string
    var selectedTags: set<string>
    var selectedDuration: int
    var newTagText: string
    var showingTagLimitAlert: bool

    /** `init(defaultCategory:)`: the given category, else the quick-input category; 30 minutes. */
    constructor (defaultCategory: Option<string>, qim: QuickInput.QuickInputManager)
      ensures selectedCategory == defaultCategory.GetOr(qim.lastUsedCategory)
      ensures memoTitle == [] && memoText == [] && selectedTags == {} && newTagText == []
      ensures selectedDuration == 30 && !showingTagLimitAlert
    {
      selectedCategory := defaultCategory.GetOr(qim.GetQuickCategory());
      memoTitle := [];
      memoText := [];
      selectedTags := {};
      selectedDuration := 30;
      newTagText := [];
      showingTagLimitAlert := false;
    }

    /**
     * `toggleTag`: a selected tag is removed; a new one is added unless a
     * free user is at the limit, who gets the alert instead. A free user
     * within the limit stays within it.
     */
    method ToggleTag(tag: string, pm: PurchaseManager.PurchaseManager)
      modifies this
      ensures tag in old(selectedTags) ==> selectedTags == old(selectedTags) - {tag} && showingTagLimitAlert == old(showingTagLimitAlert)
      ensures tag !in old(selectedTags) && AtTagLimit(old(selectedTags), pm) ==> selectedTags == old(selectedTags) && showingTagLimitAlert
      ensures tag !in old(selectedTags) && !AtTagLimit(old(selectedTags), pm) ==>
                selectedTags == old(selectedTags) + {tag} && showingTagLimitAlert == old(showingTagLimitAlert)
      ensures !pm.isProVersion && |old(selectedTags)| <= PurchaseManager.FreeMaxTagsPerMemo ==> |selectedTags| <= PurchaseManager.FreeMaxTagsPerMemo
      ensures selectedCategory == old(selectedCategory) && memoTitle == old(memoTitle) && memoText == old(memoText)
      ensures selectedDuration == old(selectedDuration) && newTagText == old(newTagText)
    {
      if tag in selectedTags {
        selectedTags := selectedTags - {tag};
      } else {
        var maxTags := pm.GetMaxTagsPerMemo();
        if |selectedTags| >= maxTags && !pm.isProVersion {
          showingTagLimitAlert := true;
        } else {
          selectedTags := selectedTags + {tag};
        }
      }
    }

    /** `updateDefaultTags`: the selection becomes the category's first two default tags, if the category exists. */
    method UpdateDefaultTags(dm: DataManager.DataManager)
      modifies this
      ensures dm.GetCategory(old(selectedCategory)).Some? ==>
                selectedTags == SetOf(Prefix(dm.GetCategory(old(selectedCategory)).value.defaultTags, 2))
      ensures dm.GetCategory(old(selectedCategory)).Some? ==> |selectedTags| <= 2
      ensures dm.GetCategory(old(selectedCategory)).None? ==> selectedTags == old(selectedTags)
      ensures selectedCategory == old(selectedCategory) && memoTitle == old(memoTitle) && memoText == old(memoText)
      ensures selectedDuration == old(selectedDuration) && newTagText == old(newTagText)
      ensures showingTagLimitAlert == old(showingTagLimitAlert)
    {
      var category := dm.GetCategory(selectedCategory);
      if category.Some? {
        SetOfSize(Prefix(category.value.defaultTags, 2));
        selectedTags := SetOf(Prefix(category.value.defaultTags, 2));
      }
    }

    /**
     * `saveMemo`: text that is blank once trimmed saves nothing; otherwise a
     * memo with the trimmed text and title, the chosen category, tags and
     * duration is appended and the category recorded as last used.
     */
    method SaveMemo(dm: DataManager.DataManager, qim: QuickInput.QuickInputManager, freshId: Uuid, now: Date)
      returns (saved: Option<QuickMemo>)
      modifies dm, qim
      ensures Text.Trim(memoText) == [] ==> saved.None? && dm.memos == old(dm.memos) && dm.categories == old(dm.categories)
      ensures Text.Trim(memoText) == [] ==> qim.lastUsedCategory == old(qim.lastUsedCategory) && qim.recentCategories == old(qim.recentCategories)
      ensures Text.Trim(memoText) != [] ==> saved.Some? && dm.memos == old(dm.memos) + [saved.value] && dm.categories == old(dm.categories)
      ensures saved.Some? ==> saved.value.id == freshId && saved.value.createdAt == now && saved.value.calendarEventId.None?
      ensures saved.Some? ==> saved.value.content == Text.Trim(memoText) && saved.value.content != []
      ensures saved.Some? ==> Text.Trim(saved.value.content) == saved.value.content && Text.Trim(saved.value.title) == saved.value.title
      ensures saved.Some? ==> saved.value.title == Text.Trim(memoTitle) && saved.value.primaryCategory == selectedCategory
      ensures saved.Some? ==> SetOf(saved.value.tags) == selectedTags && |saved.value.tags| == |selectedTags|
      ensures saved.Some? ==> saved.value.durationMinutes == selectedDuration
      ensures saved.Some? ==> qim.lastUsedCategory == selectedCategory
                              && qim.recentCategories == QuickInput.Promote(old(qim.recentCategories), selectedCategory)
    {
      var trimmedText := Text.Trim(memoText);
      if trimmedText == [] {
        return None;
      }
      var tags := SetToSeq(selectedTags);
      var memo := NewMemo(freshId, now, Text.Trim(memoTitle), trimmedText, selectedCategory, tags, selectedDuration);
      Text.TrimIdempotent(memoText, Text.WhitespacesAndNewlines);
      Text.TrimIdempotent(memoTitle, Text.WhitespacesAndNewlines);
      dm.AddMemo(memo);
      qim.RecordCategoryUsage(selectedCategory);
      saved := Some(memo);
    }

    /**
     * `addNewTag`: blank input is ignored; a free user at the limit gets the
     * alert; otherwise the tag is selected when the category accepted it
     * (`categoryAccepted`, the result of adding it to the category). The
     * input is cleared in both of the last cases.
     */
    method AddNewTag(pm: PurchaseManager.PurchaseManager, categoryAccepted: bool)
      modifies this
      ensures Text.Trim(old(newTagText)) == [] ==> selectedTags == old(selectedTags) && newTagText == old(newTagText)
                                                   && showingTagLimitAlert == old(showingTagLimitAlert)
      ensures Text.Trim(old(newTagText)) != [] ==> newTagText == []
      ensures Text.Trim(old(newTagText)) != [] && AtTagLimit(old(selectedTags), pm) ==> selectedTags == old(selectedTags) && showingTagLimitAlert
      ensures Text.Trim(old(newTagText)) != [] && !AtTagLimit(old(selectedTags), pm) ==>
                if categoryAccepted then selectedTags == old(selectedTags) + {Text.Trim(old(newTagText))} && showingTagLimitAlert == old(showingTagLimitAlert)
                else selectedTags == old(selectedTags) && showingTagLimitAlert
      ensures !pm.isProVersion && |old(selectedTags)| <= PurchaseManager.FreeMaxTagsPerMemo ==> |selectedTags| <= PurchaseManager.FreeMaxTagsPerMemo
      ensures selectedCategory == old(selectedCategory) && memoTitle == old(memoTitle) && memoText == old(memoText)
      ensures selectedDuration == old(selectedDuration)
    {
      var trimmed := Text.Trim(newTagText);
      if trimmed == [] {
        return;
      }
      var maxTags := pm.GetMaxTagsPerMemo();
      if |selectedTags| >= maxTags && !pm.isProVersion {
        showingTagLimitAlert := true;
        newTagText := [];
        return;
      }
      if categoryAccepted {
        selectedTags := selectedTags + {trimmed};
      } else {
        showingTagLimitAlert := true;
      }
      newTagText := [];
    }
  }
}
