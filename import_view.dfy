/**
 * The import screen: memos read from a file take the chosen category when
 * they have none (or the catch-all one), a free user's import is cut to
 * what fits under the memo limit, and each memo is added again under a new
 * identifier. Reading the file is the export module's `importMemos`,
 * whose result is passed in; the error text is a parameter.
 */
module ImportView {
  import opened Wrappers
  import opened DataModels
  import ExportManager
  import DataManager
  import PurchaseManager
  import Rewards

  /** A memo in the catch-all category, or in none, which an import moves to the chosen one. */
  predicate Unassigned(m: QuickMemo)
  {
    m.primaryCategory == OtherCategory || m.primaryCategory == []
  }

  /** The category substitution of `loadFile`. */
  function AssignCategory(memos: seq<QuickMemo>, selected: string): (r: seq<QuickMemo>)
    ensures |r| == |memos|
    ensures forall i :: 0 <= i < |r| && Unassigned(memos[i]) ==> r[i] == memos[i].(primaryCategory := selected)
    ensures forall i :: 0 <= i < |r| && !Unassigned(memos[i]) ==> r[i] == memos[i]
    ensures selected != [] && selected != OtherCategory ==> forall i :: 0 <= i < |r| ==> !Unassigned(r[i])
  {
    if memos == [] then []
    else
      var m := memos[0];
      [if Unassigned(m) then m.(primaryCategory := selected) else m] + AssignCategory(memos[1..], selected)
  }

  /** Applying the substitution twice is the same as once. */
  lemma AssignCategoryIdempotent(memos: seq<QuickMemo>, selected: string)
    ensures AssignCategory(AssignCategory(memos, selected), selected) == AssignCategory(memos, selected)
  {
    var once := AssignCategory(memos, selected);
    var twice := AssignCategory(once, selected);
    forall i | 0 <= i < |memos| ensures twice[i] == once[i] {
      if Unassigned(memos[i]) {
        assert once[i].primaryCategory == selected;
      }
    }
  }

  /** What `performImport` decides before adding anything. */
  datatype Allowance = Allowed(count: nat) | LimitExceeded(maxMemos: int)

  /** The memo limit: 100 for free users, `Int.max` for Pro users. */
  function MaxMemos(isPro: bool): int
  {
    if isPro then PurchaseManager.IntMax else Rewards.FreeMemoLimit
  }

  /**
   * Everything fits, or only the first `max - current` do, or, when no room
   * is left at all, nothing is imported and an error is shown.
   */
  function ImportAllowance(currentCount: nat, newCount: nat, isPro: bool): (a: Allowance)
    ensures a.Allowed? ==> a.count <= newCount && currentCount + a.count <= MaxMemos(isPro)
    ensures a.Allowed? && a.count < newCount ==> currentCount + a.count == MaxMemos(isPro)
    ensures currentCount + newCount <= MaxMemos(isPro) ==> a == Allowed(newCount)
    ensures a.LimitExceeded? <==> currentCount + newCount > MaxMemos(isPro) && currentCount >= MaxMemos(isPro)
    ensures a.LimitExceeded? ==> a.maxMemos == MaxMemos(isPro)
  {
    var maxMemos := MaxMemos(isPro);
    if currentCount + newCount > maxMemos then
      var allowedCount := maxMemos - currentCount;
      if allowedCount > 0 then Allowed(allowedCount) else LimitExceeded(maxMemos)
    else Allowed(newCount)
  }

  /** A free user who starts within the limit ends within it. */
  lemma FreeImportStaysWithinLimit(currentCount: nat, newCount: nat)
    requires ImportAllowance(currentCount, newCount, false).Allowed?
    ensures currentCount + ImportAllowance(currentCount, newCount, false).count <= Rewards.FreeMemoLimit
  {
  }

  /** The memo `performImport` adds for an imported one: new identifier and dates, no calendar event. */
  function Recreated(m: QuickMemo, freshId: Uuid, now: Date): (r: QuickMemo)
    ensures r.id == freshId && r.createdAt == now && r.updatedAt == now && r.calendarEventId.None?
    ensures r.title == m.title && r.content == m.content && r.primaryCategory == m.primaryCategory
    ensures r.tags == m.tags && r.durationMinutes == m.durationMinutes
  {
    QuickMemo(freshId, m.title, m.content, m.primaryCategory, m.tags, now, now, None, m.durationMinutes)
  }

  /** Every memo recreated, the `i`-th under `newId(i)`. */
  function RecreatedAll(memos: seq<QuickMemo>, newId: nat -> Uuid, now: Date): (r: seq<QuickMemo>)
    ensures |r| == |memos|
    ensures forall i :: 0 <= i < |r| ==> r[i] == Recreated(memos[i], newId(i), now)
  {
    seq(|memos|, i requires 0 <= i < |memos| => Recreated(memos[i], newId(i), now))
  }

  class ImportView {
    var importedMemos: seq<QuickMemo>
    var selectedCategory: string
    var showingError: bool
    var errorMessage: string
    var isImporting: bool
    var showingSuccess: bool
    var importedCount: nat

    constructor ()
      ensures importedMemos == [] && selectedCategory == OtherCategory && importedCount == 0
      ensures !showingError && !isImporting && !showingSuccess && errorMessage == []
    {
      importedMemos := [];
      selectedCategory := OtherCategory;
      showingError := false;
      errorMessage := [];
      isImporting := false;
      showingSuccess := false;
      importedCount := 0;
    }

    /** `loadFile`: the memos read, with the chosen category filled in; a failed read shows its error. */
    method LoadFile(loaded: Result<seq<QuickMemo>, ExportManager.ImportError>, describe: ExportManager.ImportError -> string)
      modifies this
      ensures loaded.Ok? ==> importedMemos == AssignCategory(loaded.value, selectedCategory) && showingError == old(showingError)
      ensures loaded.Err? ==> importedMemos == old(importedMemos) && showingError && errorMessage == describe(loaded.error)
      ensures !isImporting
      ensures selectedCategory == old(selectedCategory) && importedCount == old(importedCount) && showingSuccess == old(showingSuccess)
    {
      isImporting := true;
      if loaded.Ok? {
        importedMemos := AssignCategory(loaded.value, selectedCategory);
      } else {
        errorMessage := describe(loaded.error);
        showingError := true;
      }
      isImporting := false;
    }

    /**
     * `performImport`: adds the memos that fit under the limit, each under
     * a new identifier, and reports how many were added; with no room left
     * it adds nothing and shows the limit error.
     */
    method PerformImport(dm: DataManager.DataManager, pm: PurchaseManager.PurchaseManager,
                         newId: nat -> Uuid, now: Date, limitMessage: int -> string)
      modifies this, dm
      ensures var a := ImportAllowance(|old(dm.memos)|, |importedMemos|, pm.isProVersion);
              a.Allowed? ==> dm.memos == old(dm.memos) + RecreatedAll(importedMemos[..a.count], newId, now)
                             && importedCount == a.count && showingSuccess && showingError == old(showingError)
      ensures var a := ImportAllowance(|old(dm.memos)|, |importedMemos|, pm.isProVersion);
              a.LimitExceeded? ==> dm.memos == old(dm.memos) && showingError && errorMessage == limitMessage(a.maxMemos)
                                   && importedCount == old(importedCount) && showingSuccess == old(showingSuccess)
      ensures !pm.isProVersion && |old(dm.memos)| <= Rewards.FreeMemoLimit ==> |dm.memos| <= Rewards.FreeMemoLimit
      ensures dm.categories == old(dm.categories) && importedMemos == old(importedMemos) && !isImporting
    {
      isImporting := true;
      var a := ImportAllowance(|dm.memos|, |importedMemos|, pm.isProVersion);
      if a.LimitExceeded? {
        errorMessage := limitMessage(a.maxMemos);
        showingError := true;
        isImporting := false;
        return;
      }
      var memosToImport := importedMemos[..a.count];
      var i := 0;
      while i < |memosToImport|
        invariant 0 <= i <= |memosToImport|
        invariant dm.memos == old(dm.memos) + RecreatedAll(memosToImport[..i], newId, now)
        invariant dm.categories == old(dm.categories)
        invariant importedMemos == old(importedMemos) && isImporting
        invariant showingError == old(showingError) && showingSuccess == old(showingSuccess) && importedCount == old(importedCount)
      {
        assert RecreatedAll(memosToImport[..i + 1], newId, now)
            == RecreatedAll(memosToImport[..i], newId, now) + [Recreated(memosToImport[i], newId(i), now)];
        dm.AddMemo(Recreated(memosToImport[i], newId(i), now));
        i := i + 1;
      }
      assert memosToImport[..i] == memosToImport;
      importedCount := |memosToImport|;
      isImporting := false;
      showingSuccess := true;
    }
  }
}
