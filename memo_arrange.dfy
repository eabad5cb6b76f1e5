/**
 * The memo-arrangement screen: the user's saved custom prompts (at most
 * three may be added), the choice of the instruction sent to the AI, and
 * the prompt templates for handing a memo to a coding assistant. The AI
 * call itself is not modelled: an arrangement "starts" when an instruction
 * is handed over.
 */
module MemoArrange {
  import opened Wrappers
  import opened DataModels
  import opened Seqs

  /** `CustomPrompt`. */
  datatype CustomPrompt = CustomPrompt(id: Uuid, name: string, prompt: string, icon: string)

  const MaxPrompts: nat := 3

  function PromptIdIs(id: Uuid): CustomPrompt -> bool { (p: CustomPrompt) => p.id == id }
  function PromptIdIsNot(id: Uuid): CustomPrompt -> bool { (p: CustomPrompt) => p.id != id }

  class CustomPromptManager {
    var customPrompts: seq<CustomPrompt>

    /** `init`: the stored prompts, none when nothing could be decoded. */
    constructor (stored: Option<seq<CustomPrompt>>)
      ensures customPrompts == stored.GetOr([])
    {
      customPrompts := stored.GetOr([]);
    }

    /** `canAddMore`. */
    function CanAddMore(): (b: bool)
      reads this
      ensures b <==> |customPrompts| < MaxPrompts
    {
      |customPrompts| < MaxPrompts
    }

    /**
     * `addPrompt`: refused once three prompts exist, otherwise appended, so
     * adding never takes the list past three.
     */
    method AddPrompt(prompt: CustomPrompt) returns (added: bool)
      modifies this
      ensures added <==> old(|customPrompts|) < MaxPrompts
      ensures added ==> customPrompts == old(customPrompts) + [prompt]
      ensures !added ==> customPrompts == old(customPrompts)
      ensures old(|customPrompts|) <= MaxPrompts ==> |customPrompts| <= MaxPrompts
    {
      if !CanAddMore() {
        return false;
      }
      customPrompts := customPrompts + [prompt];
      return true;
    }

    /** `updatePrompt`: replaces the first prompt with the same identifier; no match, no change. */
    method UpdatePrompt(prompt: CustomPrompt)
      modifies this
      ensures customPrompts == ReplaceFirst(old(customPrompts), PromptIdIs(prompt.id), prompt)
      ensures (forall p :: p in old(customPrompts) ==> p.id != prompt.id) ==> customPrompts == old(customPrompts)
      ensures |customPrompts| == old(|customPrompts|)
    {
      var index := FirstIndex(customPrompts, PromptIdIs(prompt.id));
      if index.Some? {
        customPrompts := customPrompts[index.value := prompt];
      }
    }

    /** `deletePrompt`: every prompt with that identifier goes, the others stay in order. */
    method DeletePrompt(prompt: CustomPrompt)
      modifies this
      ensures customPrompts == Filter(old(customPrompts), PromptIdIsNot(prompt.id))
      ensures forall p :: multiset(customPrompts)[p] == if p.id == prompt.id then 0 else multiset(old(customPrompts))[p]
    {
      forall p
        ensures multiset(Filter(customPrompts, PromptIdIsNot(prompt.id)))[p]
                == if p.id == prompt.id then 0 else multiset(customPrompts)[p]
      {
        FilterMultiset(customPrompts, PromptIdIsNot(prompt.id), p);
      }
      customPrompts := Filter(customPrompts, PromptIdIsNot(prompt.id));
    }
  }

  /** The built-in arrangement instructions, by preset key (`AIManager.arrangePresets`). */
  const ArrangePresets: map<string, string> := map[
    "summarize" := "このメモを3行以内で要約してください。",
    "business" := "このメモをビジネス文書風に書き直してください。",
    "casual" := "このメモをカジュアルで親しみやすい文章に書き直してください。",
    "translate_en" := "このメモを英語に翻訳してください。",
    "translate_ja" := "このメモを日本語に翻訳してください。",
    "expand" := "このメモをより詳しく、具体的に展開してください。",
    "bullets" := "このメモを箇条書き形式に整理してください。"]

  /** The preset keys the screen offers, in display order. */
  const PresetKeys: seq<string> := ["summarize", "business", "casual", "expand", "bullets", "translate_en", "translate_ja"]

  /** Every preset the screen offers has an instruction. */
  lemma PresetKeysHaveInstructions()
    ensures forall k :: k in PresetKeys ==> k in ArrangePresets
  {
  }

  /** What the user has chosen on the screen. */
  datatype Selection = Selection(selectedPreset: string, selectedCustomPromptId: Option<Uuid>, customInstruction: string)

  /** `canArrange`: something is chosen. */
  function CanArrange(sel: Selection): (b: bool)
    ensures b <==> sel.selectedPreset != [] || sel.selectedCustomPromptId.Some? || sel.customInstruction != []
  {
    sel.selectedPreset != [] || sel.selectedCustomPromptId.Some? || sel.customInstruction != []
  }

  /**
   * The instruction `arrangeMemo` sends: typed text first, then the chosen
   * saved prompt (if it still exists), then the chosen preset.
   */
  function ResolveInstruction(sel: Selection, prompts: seq<CustomPrompt>): (r: Option<string>)
    ensures sel.customInstruction != [] ==> r == Some(sel.customInstruction)
    ensures sel.customInstruction == [] && sel.selectedCustomPromptId.Some?
            && FirstWhere(prompts, PromptIdIs(sel.selectedCustomPromptId.value)).Some?
            ==> r == Some(FirstWhere(prompts, PromptIdIs(sel.selectedCustomPromptId.value)).value.prompt)
    ensures r.None? <==> sel.customInstruction == []
                         && (sel.selectedCustomPromptId.None?
                             || FirstWhere(prompts, PromptIdIs(sel.selectedCustomPromptId.value)).None?)
                         && sel.selectedPreset !in ArrangePresets
    ensures sel.customInstruction == []
            && (sel.selectedCustomPromptId.None? || FirstWhere(prompts, PromptIdIs(sel.selectedCustomPromptId.value)).None?)
            && sel.selectedPreset in ArrangePresets
            ==> r == Some(ArrangePresets[sel.selectedPreset])
  {
    if sel.customInstruction != [] then Some(sel.customInstruction)
    else if sel.selectedCustomPromptId.Some? && FirstWhere(prompts, PromptIdIs(sel.selectedCustomPromptId.value)).Some? then
      Some(FirstWhere(prompts, PromptIdIs(sel.selectedCustomPromptId.value)).value.prompt)
    else if sel.selectedPreset in ArrangePresets then Some(ArrangePresets[sel.selectedPreset])
    else None
  }

  /** A choice made on the screen from what it offers always yields an instruction. */
  lemma OfferedChoiceResolves(sel: Selection, prompts: seq<CustomPrompt>)
    requires sel.customInstruction != []
             || sel.selectedPreset in PresetKeys
             || (exists p :: p in prompts && sel.selectedCustomPromptId == Some(p.id))
    ensures ResolveInstruction(sel, prompts).Some?
  {
    PresetKeysHaveInstructions();
    if sel.customInstruction == [] && !(sel.selectedPreset in PresetKeys) {
      var p :| p in prompts && sel.selectedCustomPromptId == Some(p.id);
      assert PromptIdIs(p.id)(p);
    }
  }

  /** The spinner flag and the instruction sent by one press of the arrange button. */
  datatype ArrangeStart = ArrangeStart(isProcessing: bool, sent: Option<string>)

  /** The arrange button is enabled when something is chosen and nothing is running. */
  predicate ButtonEnabled(sel: Selection, isProcessing: bool)
  {
    CanArrange(sel) && !isProcessing
  }

  /**
   * `arrangeMemo` as written: the spinner flag is raised before the
   * instruction is looked up, and the early return leaves it raised.
   */
  function ArrangeMemoAsWritten(sel: Selection, prompts: seq<CustomPrompt>): (r: ArrangeStart)
    ensures r.isProcessing
    ensures r.sent == ResolveInstruction(sel, prompts)
  {
    ArrangeStart(true, ResolveInstruction(sel, prompts))
  }

  /**
   * Choosing a saved prompt and then deleting it leaves the choice in place:
   * the button stays enabled, pressing it sends nothing, and afterwards the
   * button is disabled for good since no request will lower the flag.
   */
  lemma DeletedPromptLeavesSpinner()
    ensures var sel := Selection("", Some(7), "");
            CanArrange(sel)
            && ArrangeMemoAsWritten(sel, []).sent.None?
            && !ButtonEnabled(sel, ArrangeMemoAsWritten(sel, []).isProcessing)
  {
    var sel := Selection("", Some(7), "");
    assert "" !in ArrangePresets;
  }

  /** `arrangeMemo` with the flag raised only when a request actually starts. */
  function ArrangeMemo(sel: Selection, prompts: seq<CustomPrompt>): (r: ArrangeStart)
    ensures r.isProcessing <==> r.sent.Some?
    ensures r.sent == ResolveInstruction(sel, prompts)
  {
    var instruction := ResolveInstruction(sel, prompts);
    ArrangeStart(instruction.Some?, instruction)
  }

  /** With the correction a press that sends nothing leaves the button usable. */
  lemma ArrangeMemoNeverStuck(sel: Selection, prompts: seq<CustomPrompt>)
    requires ButtonEnabled(sel, false)
    ensures ArrangeMemo(sel, prompts).sent.None? ==> ButtonEnabled(sel, ArrangeMemo(sel, prompts).isProcessing)
  {
  }

  /** `ExportTemplate` of the hand-over sheet. */
  datatype ExportTemplate = General | CodeReview | BugFix | Feature | Refactor

  /** The text before the memo's content. */
  function TemplateHead(t: ExportTemplate): (r: string)
    ensures |r| > 0 && r[|r| - 1] == '\n'
  {
    match t
    case General => "以下のタスクを実行してください。\n\n## タスク内容\n"
    case CodeReview => "以下の内容についてコードレビューを行ってください。\n\n## レビュー対象\n"
    case BugFix => "以下のバグを調査し、修正してください。\n\n## バグの内容\n"
    case Feature => "以下の機能を実装してください。\n\n## 実装する機能\n"
    case Refactor => "以下のコードをリファクタリングしてください。\n\n## リファクタリング対象\n"
  }

  /** The text after the context section. */
  function TemplateTail(t: ExportTemplate): (r: string)
    ensures |r| >= 2 && r[0] == r[1] == '\n'
  {
    "\n\n" + TemplateNotes(t)
  }

  /** The closing section of each template, after its blank line. */
  function TemplateNotes(t: ExportTemplate): string
  {
    match t
    case General =>
      "## 注意事項\n- 必要に応じてコードベースを調査してください\n- 実装前に計画を立ててください\n- 変更内容を明確に説明してください"
    case CodeReview =>
      "## 確認ポイント\n- コードの品質と可読性\n- バグの可能性\n- パフォーマンスの問題\n- セキュリティ上の懸念\n- ベストプラクティスへの準拠\n\nレビュー結果を箇条書きでまとめてください。"
    case BugFix =>
      "## 実施手順\n1. 関連するコードを特定する\n2. 原因を分析する\n3. 修正方法を提案する\n4. 修正を実装する\n5. 修正後のテスト方法を説明する\n\n原因と修正内容を明確に説明してください。"
    case Feature =>
      "## 実装方針\n1. 既存のコードパターンに従う\n2. 適切なエラーハンドリングを追加\n3. 必要に応じてテストを作成\n4. コードにコメントを追加\n\n実装計画を立ててから作業を開始してください。"
    case Refactor =>
      "## 改善ポイント\n- コードの可読性向上\n- 重複コードの削減\n- 適切な抽象化\n- パフォーマンスの最適化\n- 命名の改善\n\n変更前後の比較と、改善点を説明してください。"
  }

  const ContextHeading: string := "\n\n## 追加コンテキスト\n"

  /** Nothing for an empty context, otherwise a heading followed by the context. */
  function ContextSection(context: string): (r: string)
    ensures context == [] ==> r == []
    ensures context != [] ==> |r| == |ContextHeading| + |context| && r[..|ContextHeading|] == ContextHeading
                              && r[|ContextHeading|..] == context
  {
    if context == [] then "" else ContextHeading + context
  }

  /** `generatePrompt`. */
  function GeneratePrompt(t: ExportTemplate, content: string, context: string): (r: string)
    ensures SplitsInto(r, TemplateHead(t), content, ContextSection(context), TemplateTail(t))
  {
    Parts4(TemplateHead(t), content, ContextSection(context), TemplateTail(t));
    TemplateHead(t) + content + ContextSection(context) + TemplateTail(t)
  }

  /** `r` is `head`, `content`, `section` and `tail` one after another. */
  predicate SplitsInto(r: string, head: string, content: string, section: string, tail: string)
  {
    var h := |head|;
    var n := |section|;
    |r| == h + |content| + n + |tail|
    && r[..h] == head
    && r[h..h + |content|] == content
    && r[h + |content|..h + |content| + n] == section
    && r[h + |content| + n..] == tail
  }

  /** Where the four parts of a concatenation sit in it. */
  lemma Parts4(head: string, content: string, section: string, tail: string)
    ensures SplitsInto(head + content + section + tail, head, content, section, tail)
  {
    var r := head + content + section + tail;
    assert r[..|head|] == head;
    assert r[|head|..|head| + |content|] == content;
    assert r[|head| + |content|..|head| + |content| + |section|] == section;
    assert r[|head| + |content| + |section|..] == tail;
  }

}
